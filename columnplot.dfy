/** The column plot: turns a normalised series of columns into rectangles.
    Positive columns grow up from a zero line at `positiveHeight`; negative
    columns hang below it, one pixel lower to leave room for the dividing
    line. A domain fixes which values get the full available height. */
module ColumnPlot {
  import opened Common
  import opened Divisors
  import opened Normalizer

  /** A domain option is either one number or a `[min, max]` pair. */
  datatype DomainOption = Scalar(d: real) | Pair(min: real, max: real)

  type Domain = (real, real)

  /** `normalizeDomain`: a pair is kept; a single number becomes the domain
      from it to 0 (or from 0 to it), so its non-zero end is the number. */
  function NormalizeDomain(domain: DomainOption): (r: Domain)
    ensures domain.Pair? ==> r == (domain.min, domain.max)
    ensures domain.Scalar? ==> r.0 <= 0.0 <= r.1 && r.0 + r.1 == domain.d
    ensures domain.Scalar? ==> (r == (0.0, 0.0) <==> domain.d == 0.0)
    ensures domain.Scalar? && domain.d < 0.0 ==> r == (domain.d, 0.0)
    ensures domain.Scalar? && domain.d > 0.0 ==> r == (0.0, domain.d)
  {
    match domain
    case Pair(min, max) => (min, max)
    case Scalar(d) => (if d < 0.0 then d else 0.0, if d > 0.0 then d else 0.0)
  }

  // -----------------------------------------------------------------------
  // The extremes scan

  /** The four running extremes of the scan loop; all start at 0. */
  datatype Extremes = Extremes(
    mostNegativeRelValue: real, mostNegativeValue: real,
    mostPositiveRelValue: real, mostPositiveValue: real)

  /** One step of the scan: a value below the lowest so far lowers it,
      otherwise a value above the highest raises it. */
  function ScanStep<T>(e: Extremes, column: Column<T>): Extremes
  {
    var e1 :=
      if column.relativeValue < e.mostNegativeRelValue then e.(mostNegativeRelValue := column.relativeValue)
      else if column.relativeValue > e.mostPositiveRelValue then e.(mostPositiveRelValue := column.relativeValue)
      else e;
    if column.value < e1.mostNegativeValue then e1.(mostNegativeValue := column.value)
    else if column.value > e1.mostPositiveValue then e1.(mostPositiveValue := column.value)
    else e1
  }

  function ExtremesOf<T>(series: seq<Column<T>>): (e: Extremes)
    ensures e.mostNegativeRelValue <= 0.0 <= e.mostPositiveRelValue
    ensures e.mostNegativeValue <= 0.0 <= e.mostPositiveValue
    decreases |series|
  {
    if |series| == 0 then Extremes(0.0, 0.0, 0.0, 0.0)
    else ScanStep(ExtremesOf(series[..|series| - 1]), series[|series| - 1])
  }

  /** The scan finds min(0, lowest) and max(0, highest) of the relative
      values and of the values. */
  lemma ExtremesBounds<T>(series: seq<Column<T>>)
    ensures var e := ExtremesOf(series);
      && e.mostNegativeRelValue <= 0.0 <= e.mostPositiveRelValue
      && e.mostNegativeValue <= 0.0 <= e.mostPositiveValue
      && (forall i :: 0 <= i < |series| ==>
            e.mostNegativeRelValue <= series[i].relativeValue <= e.mostPositiveRelValue
            && e.mostNegativeValue <= series[i].value <= e.mostPositiveValue)
      && (e.mostNegativeRelValue == 0.0 || exists i :: 0 <= i < |series| && series[i].relativeValue == e.mostNegativeRelValue)
      && (e.mostPositiveRelValue == 0.0 || exists i :: 0 <= i < |series| && series[i].relativeValue == e.mostPositiveRelValue)
      && (e.mostNegativeValue == 0.0 || exists i :: 0 <= i < |series| && series[i].value == e.mostNegativeValue)
      && (e.mostPositiveValue == 0.0 || exists i :: 0 <= i < |series| && series[i].value == e.mostPositiveValue)
  {
    RelExtremesBounds(series);
    ValueExtremesBounds(series);
  }

  /** The relative-value half of `ExtremesBounds`. */
  lemma {:induction false} RelExtremesBounds<T>(series: seq<Column<T>>)
    ensures var e := ExtremesOf(series);
      && (forall i :: 0 <= i < |series| ==>
            e.mostNegativeRelValue <= series[i].relativeValue <= e.mostPositiveRelValue)
      && (e.mostNegativeRelValue == 0.0 || exists i :: 0 <= i < |series| && series[i].relativeValue == e.mostNegativeRelValue)
      && (e.mostPositiveRelValue == 0.0 || exists i :: 0 <= i < |series| && series[i].relativeValue == e.mostPositiveRelValue)
    decreases |series|
  {
    if |series| > 0 {
      var prefix := series[..|series| - 1];
      RelExtremesBounds(prefix);
      var e := ExtremesOf(series);
      var e0 := ExtremesOf(prefix);
      var last := |series| - 1;
      forall i | 0 <= i < |series|
        ensures e.mostNegativeRelValue <= series[i].relativeValue <= e.mostPositiveRelValue
      {
        if i < last {
          assert series[i] == prefix[i];
        }
      }
      if e.mostNegativeRelValue != e0.mostNegativeRelValue {
        assert series[last].relativeValue == e.mostNegativeRelValue;
      } else if e.mostNegativeRelValue != 0.0 {
        var i :| 0 <= i < |prefix| && prefix[i].relativeValue == e0.mostNegativeRelValue;
        assert series[i] == prefix[i];
      }
      if e.mostPositiveRelValue != e0.mostPositiveRelValue {
        assert series[last].relativeValue == e.mostPositiveRelValue;
      } else if e.mostPositiveRelValue != 0.0 {
        var i :| 0 <= i < |prefix| && prefix[i].relativeValue == e0.mostPositiveRelValue;
        assert series[i] == prefix[i];
      }
    }
  }

  /** The value half of `ExtremesBounds`. */
  lemma {:induction false} ValueExtremesBounds<T>(series: seq<Column<T>>)
    ensures var e := ExtremesOf(series);
      && (forall i :: 0 <= i < |series| ==> e.mostNegativeValue <= series[i].value <= e.mostPositiveValue)
      && (e.mostNegativeValue == 0.0 || exists i :: 0 <= i < |series| && series[i].value == e.mostNegativeValue)
      && (e.mostPositiveValue == 0.0 || exists i :: 0 <= i < |series| && series[i].value == e.mostPositiveValue)
    decreases |series|
  {
    if |series| > 0 {
      var prefix := series[..|series| - 1];
      ValueExtremesBounds(prefix);
      var e := ExtremesOf(series);
      var e0 := ExtremesOf(prefix);
      var last := |series| - 1;
      forall i | 0 <= i < |series|
        ensures e.mostNegativeValue <= series[i].value <= e.mostPositiveValue
      {
        if i < last {
          assert series[i] == prefix[i];
        }
      }
      if e.mostNegativeValue != e0.mostNegativeValue {
        assert series[last].value == e.mostNegativeValue;
      } else if e.mostNegativeValue != 0.0 {
        var i :| 0 <= i < |prefix| && prefix[i].value == e0.mostNegativeValue;
        assert series[i] == prefix[i];
      }
      if e.mostPositiveValue != e0.mostPositiveValue {
        assert series[last].value == e.mostPositiveValue;
      } else if e.mostPositiveValue != 0.0 {
        var i :| 0 <= i < |prefix| && prefix[i].value == e0.mostPositiveValue;
        assert series[i] == prefix[i];
      }
    }
  }

  // -----------------------------------------------------------------------
  // Zero line and display-height corrections

  /** Where the zero line sits and how relative values are scaled on each
      side of it. */
  datatype Layout = Layout(positiveHeight: real, negativeCorrection: real, positiveCorrection: real)

  /** The branches of `plot()` that settle `positiveHeight` and the two
      corrections. */
  function LayoutOf(columnHeight: real, domain: Domain, e: Extremes): Layout
    requires e.mostNegativeRelValue <= 0.0 <= e.mostPositiveRelValue
  {
    var n, p := e.mostNegativeRelValue, e.mostPositiveRelValue;
    var (domainMin, domainMax) := domain;
    var negativeCorrection := if n < 0.0 && p > 0.0 then 1.0 / -n else 1.0;
    var positiveCorrection := if n < 0.0 && p > 0.0 then 1.0 / p else 1.0;
    if domainMin != 0.0 || domainMax != 0.0 then
      if domainMin < 0.0 then
        if domainMax == 0.0 then
          Layout(0.0, negativeCorrection * (e.mostNegativeValue / domainMin), positiveCorrection)
        else if domainMax > 0.0 then
          Layout(columnHeight * (domainMax / (domainMax - domainMin)),
                 negativeCorrection * (e.mostNegativeValue / domainMin),
                 positiveCorrection * (e.mostPositiveValue / domainMax))
        else
          Layout(columnHeight, negativeCorrection, positiveCorrection)
      else if domainMin == 0.0 && domainMax > 0.0 then
        Layout(columnHeight, negativeCorrection, positiveCorrection * (e.mostPositiveValue / domainMax))
      else
        Layout(columnHeight, negativeCorrection, positiveCorrection)
    else if n < 0.0 then
      if p == 0.0 then Layout(0.0, negativeCorrection, positiveCorrection)
      else Layout(columnHeight * (p / (p - n)), negativeCorrection, positiveCorrection)
    else
      Layout(columnHeight, negativeCorrection, positiveCorrection)
  }

  /** Without a domain: all columns non-negative keeps the full height above
      the zero line, all non-positive with some negative puts the zero line
      at the top, and both signs split the height in proportion. */
  lemma PositiveHeightWithoutDomain<T>(series: seq<Column<T>>, columnHeight: real)
    ensures var e := ExtremesOf(series);
      var ph := LayoutOf(columnHeight, (0.0, 0.0), e).positiveHeight;
      && ((forall i :: 0 <= i < |series| ==> series[i].relativeValue >= 0.0) ==> ph == columnHeight)
      && (((exists i :: 0 <= i < |series| && series[i].relativeValue < 0.0) &&
           (forall i :: 0 <= i < |series| ==> series[i].relativeValue <= 0.0)) ==> ph == 0.0)
      && (((exists i :: 0 <= i < |series| && series[i].relativeValue < 0.0) &&
           (exists i :: 0 <= i < |series| && series[i].relativeValue > 0.0)) ==>
            e.mostNegativeRelValue < 0.0 < e.mostPositiveRelValue &&
            ph == columnHeight * (e.mostPositiveRelValue / (e.mostPositiveRelValue - e.mostNegativeRelValue)))
  {
    RelExtremesSigns(series);
    HeightWithoutDomain(columnHeight, ExtremesOf(series));
  }

  /** The signs of the relative-value extremes follow from the signs of the
      columns' relative values. */
  lemma RelExtremesSigns<T>(series: seq<Column<T>>)
    ensures var e := ExtremesOf(series);
      && ((forall i :: 0 <= i < |series| ==> series[i].relativeValue >= 0.0) ==> e.mostNegativeRelValue == 0.0)
      && ((forall i :: 0 <= i < |series| ==> series[i].relativeValue <= 0.0) ==> e.mostPositiveRelValue == 0.0)
      && ((exists i :: 0 <= i < |series| && series[i].relativeValue < 0.0) ==> e.mostNegativeRelValue < 0.0)
      && ((exists i :: 0 <= i < |series| && series[i].relativeValue > 0.0) ==> e.mostPositiveRelValue > 0.0)
  {
    RelExtremesBounds(series);
  }

  /** The branches of `plot()` without a domain, on the extremes alone. */
  lemma HeightWithoutDomain(columnHeight: real, e: Extremes)
    requires e.mostNegativeRelValue <= 0.0 <= e.mostPositiveRelValue
    ensures var n, p := e.mostNegativeRelValue, e.mostPositiveRelValue;
      var ph := LayoutOf(columnHeight, (0.0, 0.0), e).positiveHeight;
      && (n == 0.0 ==> ph == columnHeight)
      && (n < 0.0 && p == 0.0 ==> ph == 0.0)
      && (n < 0.0 < p ==> ph == columnHeight * (p / (p - n)))
  {
  }

  /** With a domain `[min, max]` around 0 the height is split as the domain
      is; a domain that ends at 0 leaves no room above the zero line. */
  lemma PositiveHeightWithDomain(columnHeight: real, domainMin: real, domainMax: real, e: Extremes)
    requires e.mostNegativeRelValue <= 0.0 <= e.mostPositiveRelValue
    ensures domainMin < 0.0 < domainMax ==>
      LayoutOf(columnHeight, (domainMin, domainMax), e).positiveHeight == columnHeight * (domainMax / (domainMax - domainMin))
    ensures domainMin < 0.0 && domainMax == 0.0 ==>
      LayoutOf(columnHeight, (domainMin, domainMax), e).positiveHeight == 0.0
    ensures domainMin == 0.0 ==>
      LayoutOf(columnHeight, (domainMin, domainMax), e).positiveHeight ==
        if e.mostNegativeRelValue < 0.0 && domainMax == 0.0 then
          (if e.mostPositiveRelValue == 0.0 then 0.0
           else columnHeight * (e.mostPositiveRelValue / (e.mostPositiveRelValue - e.mostNegativeRelValue)))
        else columnHeight
    ensures 0.0 <= columnHeight && domainMin <= 0.0 <= domainMax ==>
      0.0 <= LayoutOf(columnHeight, (domainMin, domainMax), e).positiveHeight <= columnHeight
  {
    if domainMin < 0.0 < domainMax {
      QuotientInUnitInterval(domainMax, domainMax - domainMin);
    }
    var n, p := e.mostNegativeRelValue, e.mostPositiveRelValue;
    if n < 0.0 && p > 0.0 {
      QuotientInUnitInterval(p, p - n);
    }
  }

  // -----------------------------------------------------------------------
  // Points

  datatype ColumnPoint<T> = ColumnPoint(
    datum: Column<T>,
    displayHeight: real, displayWidth: real, offsetLeft: real,
    x1: real, x2: real, y1: real, y2: real)

  /** The key a selector gives a column point's input, by which the grouped
      and stacked charts bucket points. */
  function InputKey<G, T>(selector: T -> G): ColumnPoint<T> -> G
  {
    (point: ColumnPoint<T>) => selector(point.datum.input)
  }

  function PointValue<T>(point: ColumnPoint<T>): real { point.datum.value }

  function PointRelativeValue<T>(point: ColumnPoint<T>): real { point.datum.relativeValue }

  /** The columns the points show, in order. */
  function Data<T>(points: seq<ColumnPoint<T>>): seq<Column<T>>
  {
    seq(|points|, k requires 0 <= k < |points| => points[k].datum)
  }

  datatype Zero = Zero(x: real, y: real)

  /** A laid-out chart: its size, which signs occur along each axis, its
      points and where the zero lines cross. */
  datatype Plot<P> = Plot(
    height: real, horizontalValues: Values, points: seq<P>,
    verticalValues: Values, width: real, zero: Zero)

  /** The display height of a column: its relative value times the height
      available on its side of the zero line, times that side's correction.
      It is non-negative for negative columns too: both their available
      height and their relative value are negative. */
  function DisplayHeight<T>(column: Column<T>, columnHeight: real, layout: Layout): real
  {
    if column.relativeValue < 0.0 then (layout.positiveHeight - columnHeight) * column.relativeValue * layout.negativeCorrection
    else layout.positiveHeight * column.relativeValue * layout.positiveCorrection
  }

  /** The point the `map` callback produces for the column at `index`. */
  function PointOf<T>(column: Column<T>, index: nat, columnHeight: real, columnSpacing: real,
                      displayWidth: real, layout: Layout): ColumnPoint<T>
  {
    var isNegative := column.relativeValue < 0.0;
    var displayHeight := DisplayHeight(column, columnHeight, layout);
    var negativeOffset := layout.positiveHeight + 1.0;
    var x1 := (displayWidth + columnSpacing) * (index as real);
    ColumnPoint(column, displayHeight, displayWidth, columnSpacing / 2.0,
      x1, x1 + displayWidth + columnSpacing,
      if isNegative then negativeOffset else layout.positiveHeight - displayHeight,
      if isNegative then negativeOffset + displayHeight + 1.0 else layout.positiveHeight)
  }

  /** Every point shows its own column at the configured width; its x-range
      is slot `index`; a non-negative column stands on the zero line and a
      negative one hangs from one pixel below it. */
  lemma PointGeometry<T>(column: Column<T>, index: nat, columnHeight: real, columnSpacing: real,
                         displayWidth: real, layout: Layout)
    ensures var point := PointOf(column, index, columnHeight, columnSpacing, displayWidth, layout);
      && point.datum == column
      && point.displayWidth == displayWidth
      && point.offsetLeft == columnSpacing / 2.0
      && point.x1 == (displayWidth + columnSpacing) * (index as real)
      && point.x2 == (displayWidth + columnSpacing) * ((index + 1) as real)
      && point.x2 - point.x1 == displayWidth + columnSpacing
      && point.displayHeight == DisplayHeight(column, columnHeight, layout)
      && (column.relativeValue >= 0.0 ==>
            point.y2 == layout.positiveHeight && point.y1 == layout.positiveHeight - point.displayHeight)
      && (column.relativeValue < 0.0 ==>
            point.y1 == layout.positiveHeight + 1.0 && point.y2 == layout.positiveHeight + point.displayHeight + 2.0)
  {
    SlotEnd(displayWidth + columnSpacing, index);
  }

  /** Consecutive points abut. */
  lemma PointsAbut<T>(column: Column<T>, next: Column<T>, index: nat, columnHeight: real, columnSpacing: real,
                      displayWidth: real, layout: Layout)
    ensures PointOf(column, index, columnHeight, columnSpacing, displayWidth, layout).x2
         == PointOf(next, index + 1, columnHeight, columnSpacing, displayWidth, layout).x1
  {
    SlotEnd(displayWidth + columnSpacing, index);
  }

  lemma SlotEnd(slot: real, index: nat)
    ensures slot * ((index + 1) as real) == slot * (index as real) + slot
  {
  }

  /** The sign flags raised over a series. */
  function FlagsOf<T>(series: seq<Column<T>>): Values
    decreases |series|
  {
    if |series| == 0 then ValuesNone
    else
      var flag := if series[|series| - 1].relativeValue < 0.0 then ValuesNegative else ValuesPositive;
      FlagsOf(series[..|series| - 1]) | flag
  }

  /** The Negative flag is raised exactly when some column is negative, the
      Positive flag exactly when some column is not. */
  lemma {:induction false} FlagsOfSpec<T>(series: seq<Column<T>>)
    ensures HasNegative(FlagsOf(series)) <==> exists i :: 0 <= i < |series| && series[i].relativeValue < 0.0
    ensures HasPositive(FlagsOf(series)) <==> exists i :: 0 <= i < |series| && series[i].relativeValue >= 0.0
    decreases |series|
  {
    if |series| > 0 {
      var prefix := series[..|series| - 1];
      var last := series[|series| - 1];
      FlagsOfSpec(prefix);
      FlagsOr(FlagsOf(prefix), if last.relativeValue < 0.0 then ValuesNegative else ValuesPositive);
      if exists i :: 0 <= i < |prefix| && prefix[i].relativeValue < 0.0 {
        var i :| 0 <= i < |prefix| && prefix[i].relativeValue < 0.0;
        assert series[i] == prefix[i];
      }
      if exists i :: 0 <= i < |prefix| && prefix[i].relativeValue >= 0.0 {
        var i :| 0 <= i < |prefix| && prefix[i].relativeValue >= 0.0;
        assert series[i] == prefix[i];
      }
      if exists i :: 0 <= i < |series| && series[i].relativeValue < 0.0 {
        var i :| 0 <= i < |series| && series[i].relativeValue < 0.0;
        if i < |prefix| {
          assert prefix[i] == series[i];
        }
      }
      if exists i :: 0 <= i < |series| && series[i].relativeValue >= 0.0 {
        var i :| 0 <= i < |series| && series[i].relativeValue >= 0.0;
        if i < |prefix| {
          assert prefix[i] == series[i];
        }
      }
    }
  }

  /** The scan loop of `plot()`. */
  method ScanExtremes<T>(series: seq<Column<T>>) returns (e: Extremes)
    ensures e == ExtremesOf(series)
  {
    var mostNegativeRelValue, mostNegativeValue, mostPositiveRelValue, mostPositiveValue := 0.0, 0.0, 0.0, 0.0;
    for i := 0 to |series|
      invariant ExtremesOf(series[..i]) ==
        Extremes(mostNegativeRelValue, mostNegativeValue, mostPositiveRelValue, mostPositiveValue)
    {
      assert series[..i + 1][..i] == series[..i];
      var relativeValue, value := series[i].relativeValue, series[i].value;
      if relativeValue < mostNegativeRelValue {
        mostNegativeRelValue := relativeValue;
      } else if relativeValue > mostPositiveRelValue {
        mostPositiveRelValue := relativeValue;
      }
      if value < mostNegativeValue {
        mostNegativeValue := value;
      } else if value > mostPositiveValue {
        mostPositiveValue := value;
      }
    }
    assert series[..|series|] == series;
    e := Extremes(mostNegativeRelValue, mostNegativeValue, mostPositiveRelValue, mostPositiveValue);
  }

  /** The branches of `plot()` that reassign `positiveHeight` and the two
      corrections. */
  method SettleLayout(columnHeight: real, domain: Domain, e: Extremes) returns (layout: Layout)
    requires e.mostNegativeRelValue <= 0.0 <= e.mostPositiveRelValue
    ensures layout == LayoutOf(columnHeight, domain, e)
    ensures 0.0 <= columnHeight && domain.0 <= 0.0 <= domain.1 ==> 0.0 <= layout.positiveHeight <= columnHeight
  {
    var mostNegativeRelValue, mostPositiveRelValue := e.mostNegativeRelValue, e.mostPositiveRelValue;
    var positiveHeight := columnHeight;
    var negativeDisplayHeightCorrection := 1.0;
    var positiveDisplayHeightCorrection := 1.0;
    if mostNegativeRelValue < 0.0 && mostPositiveRelValue > 0.0 {
      negativeDisplayHeightCorrection := negativeDisplayHeightCorrection / -mostNegativeRelValue;
      positiveDisplayHeightCorrection := positiveDisplayHeightCorrection / mostPositiveRelValue;
    }
    var (domainMin, domainMax) := domain;
    if domainMin != 0.0 || domainMax != 0.0 {
      if domainMin < 0.0 {
        if domainMax == 0.0 {
          negativeDisplayHeightCorrection := negativeDisplayHeightCorrection * (e.mostNegativeValue / domainMin);
          positiveHeight := 0.0;
        } else if domainMax > 0.0 {
          negativeDisplayHeightCorrection := negativeDisplayHeightCorrection * (e.mostNegativeValue / domainMin);
          positiveDisplayHeightCorrection := positiveDisplayHeightCorrection * (e.mostPositiveValue / domainMax);
          positiveHeight := positiveHeight * (domainMax / (domainMax - domainMin));
        }
      } else if domainMin == 0.0 && domainMax > 0.0 {
        positiveDisplayHeightCorrection := positiveDisplayHeightCorrection * (e.mostPositiveValue / domainMax);
      }
    } else if mostNegativeRelValue < 0.0 {
      if mostPositiveRelValue == 0.0 {
        positiveHeight := 0.0;
      } else {
        positiveHeight := positiveHeight * (mostPositiveRelValue / (mostPositiveRelValue - mostNegativeRelValue));
      }
    }
    layout := Layout(positiveHeight, negativeDisplayHeightCorrection, positiveDisplayHeightCorrection);
    PositiveHeightWithDomain(columnHeight, domainMin, domainMax, e);
  }

  /** The `map` of `plot()`: one point per column, while the sign flags are
      raised and `x2` follows the right edge. */
  method MapColumns<T>(series: seq<Column<T>>, columnHeight: real, columnSpacing: real,
                       displayWidth: real, layout: Layout)
    returns (points: seq<ColumnPoint<T>>, verticalValues: Values, x2: real)
    ensures |points| == |series|
    ensures forall i :: 0 <= i < |series| ==>
      points[i] == PointOf(series[i], i, columnHeight, columnSpacing, displayWidth, layout)
    ensures verticalValues == FlagsOf(series)
    ensures x2 == (displayWidth + columnSpacing) * (|series| as real)
  {
    verticalValues := ValuesNone;
    x2 := 0.0;
    points := [];
    for index := 0 to |series|
      invariant |points| == index
      invariant forall i :: 0 <= i < index ==>
        points[i] == PointOf(series[i], i, columnHeight, columnSpacing, displayWidth, layout)
      invariant verticalValues == FlagsOf(series[..index])
      invariant x2 == (displayWidth + columnSpacing) * (index as real)
    {
      assert series[..index + 1][..index] == series[..index];
      var column := series[index];
      var point;
      point, verticalValues := MapColumn(column, index, columnHeight, columnSpacing, displayWidth, layout,
                                         verticalValues);
      x2 := point.x2;
      points := points + [point];
    }
    assert series[..|series|] == series;
  }

  /** One call of the `map` callback: the column's point, with its sign's
      flag raised. */
  method MapColumn<T>(column: Column<T>, index: nat, columnHeight: real, columnSpacing: real,
                      displayWidth: real, layout: Layout, verticalValues: Values)
    returns (point: ColumnPoint<T>, raised: Values)
    ensures point == PointOf(column, index, columnHeight, columnSpacing, displayWidth, layout)
    ensures point.x2 == (displayWidth + columnSpacing) * ((index + 1) as real)
    ensures raised == verticalValues | (if column.relativeValue < 0.0 then ValuesNegative else ValuesPositive)
  {
    var isNegative := column.relativeValue < 0.0;
    raised := verticalValues | (if isNegative then ValuesNegative else ValuesPositive);
    point := PointOf(column, index, columnHeight, columnSpacing, displayWidth, layout);
    SlotEnd(displayWidth + columnSpacing, index);
  }

  /** `plot()`: scans the series for its extremes, settles the zero line and
      the corrections, then maps every column to a point; the chart is one
      pixel taller when a negative column needs the dividing line. */
  method PlotColumns<T>(series: seq<Column<T>>, columnHeight: real, columnSpacing: real,
                        displayWidth: real, domain: Domain) returns (plot: Plot<ColumnPoint<T>>)
    ensures var layout := LayoutOf(columnHeight, domain, ExtremesOf(series));
      && |plot.points| == |series|
      && (forall i :: 0 <= i < |series| ==>
            plot.points[i] == PointOf(series[i], i, columnHeight, columnSpacing, displayWidth, layout))
      && plot.zero == Zero(0.0, layout.positiveHeight)
    ensures forall i :: 0 < i < |series| ==> plot.points[i - 1].x2 == plot.points[i].x1
    ensures plot.width == (displayWidth + columnSpacing) * (|series| as real)
    ensures plot.verticalValues == FlagsOf(series)
    ensures HasNegative(plot.verticalValues) <==> exists i :: 0 <= i < |series| && series[i].relativeValue < 0.0
    ensures HasPositive(plot.verticalValues) <==> exists i :: 0 <= i < |series| && series[i].relativeValue >= 0.0
    ensures plot.height == if HasNegative(plot.verticalValues) then columnHeight + 1.0 else columnHeight
    ensures plot.horizontalValues == ValuesPositive
  {
    var extremes := ScanExtremes(series);
    var layout := SettleLayout(columnHeight, domain, extremes);
    var points, verticalValues, x2 := MapColumns(series, columnHeight, columnSpacing, displayWidth, layout);
    var height := columnHeight;
    if verticalValues & ValuesNegative != 0 {
      height := height + 1.0;
    }
    FlagsOfSpec(series);
    forall i | 0 < i < |series|
      ensures points[i - 1].x2 == points[i].x1
    {
      PointsAbut(series[i - 1], series[i], i - 1, columnHeight, columnSpacing, displayWidth, layout);
    }
    plot := Plot(height, ValuesPositive, points, verticalValues, x2, Zero(0.0, layout.positiveHeight));
  }

  // -----------------------------------------------------------------------
  // Properties of the layout

  /** Without a domain and with columns of both signs, the most positive
      column fills the height above the zero line and the most negative
      column the height below it. */
  lemma ExtremeColumnsFillHeight<T>(series: seq<Column<T>>, columnHeight: real, i: nat, j: nat)
    requires i < |series| && j < |series|
    requires series[i].relativeValue == ExtremesOf(series).mostPositiveRelValue > 0.0
    requires series[j].relativeValue == ExtremesOf(series).mostNegativeRelValue < 0.0
    ensures var layout := LayoutOf(columnHeight, (0.0, 0.0), ExtremesOf(series));
      && DisplayHeight(series[i], columnHeight, layout) == layout.positiveHeight
      && DisplayHeight(series[j], columnHeight, layout) == columnHeight - layout.positiveHeight
  {
    ExtremesFillHeight(ExtremesOf(series), columnHeight, series[i], series[j]);
  }

  lemma ExtremesFillHeight<T>(e: Extremes, columnHeight: real, top: Column<T>, bottom: Column<T>)
    requires top.relativeValue == e.mostPositiveRelValue > 0.0
    requires bottom.relativeValue == e.mostNegativeRelValue < 0.0
    ensures var layout := LayoutOf(columnHeight, (0.0, 0.0), e);
      && DisplayHeight(top, columnHeight, layout) == layout.positiveHeight
      && DisplayHeight(bottom, columnHeight, layout) == columnHeight - layout.positiveHeight
  {
    var p, n := e.mostPositiveRelValue, e.mostNegativeRelValue;
    var layout := LayoutOf(columnHeight, (0.0, 0.0), e);
    var ph := layout.positiveHeight;
    assert layout.positiveCorrection == 1.0 / p && layout.negativeCorrection == 1.0 / -n;
    MulInverse(ph, p);
    MulInverse(ph - columnHeight, -n);
  }

  lemma MulInverse(a: real, p: real)
    requires p != 0.0
    ensures a * p * (1.0 / p) == a
    ensures a * -p * (1.0 / p) == -a
  {
    assert p * (1.0 / p) == 1.0;
  }

  /** With a domain `[min, max]` around 0 and extremes scaled by one positive
      divisor (as `ValueExtremesScale` proves for columns normalised by that
      divisor), each column's height is its share of the domain: a column
      whose value equals the domain maximum (minimum) fills the height above
      (below) the zero line. */
  lemma DomainShare<T>(e: Extremes, column: Column<T>, columnHeight: real,
                       domainMin: real, domainMax: real, divisor: real)
    requires domainMin < 0.0 < domainMax
    requires e.mostNegativeRelValue < 0.0 < e.mostPositiveRelValue
    requires ScaledBy(e, divisor) && ScaledColumn(column, divisor)
    ensures var layout := LayoutOf(columnHeight, (domainMin, domainMax), e);
      var h := DisplayHeight(column, columnHeight, layout);
      && (column.relativeValue >= 0.0 ==> h == layout.positiveHeight * (column.value / domainMax))
      && (column.relativeValue < 0.0 ==> h == (columnHeight - layout.positiveHeight) * (column.value / domainMin))
  {
    if column.relativeValue >= 0.0 {
      PositiveDomainShare(e, column, columnHeight, domainMin, domainMax, divisor);
    } else {
      NegativeDomainShare(e, column, columnHeight, domainMin, domainMax, divisor);
    }
  }

  lemma PositiveDomainShare<T>(e: Extremes, column: Column<T>, columnHeight: real,
                               domainMin: real, domainMax: real, divisor: real)
    requires domainMin < 0.0 < domainMax
    requires e.mostNegativeRelValue < 0.0 < e.mostPositiveRelValue
    requires ScaledBy(e, divisor) && ScaledColumn(column, divisor)
    requires column.relativeValue >= 0.0
    ensures var layout := LayoutOf(columnHeight, (domainMin, domainMax), e);
      DisplayHeight(column, columnHeight, layout) == layout.positiveHeight * (column.value / domainMax)
  {
    var layout := LayoutOf(columnHeight, (domainMin, domainMax), e);
    LayoutAroundZero(columnHeight, domainMin, domainMax, e);
    PositiveShare(column, columnHeight, layout, e.mostPositiveRelValue, e.mostPositiveValue, divisor, domainMax);
  }

  lemma NegativeDomainShare<T>(e: Extremes, column: Column<T>, columnHeight: real,
                               domainMin: real, domainMax: real, divisor: real)
    requires domainMin < 0.0 < domainMax
    requires e.mostNegativeRelValue < 0.0 < e.mostPositiveRelValue
    requires ScaledBy(e, divisor) && ScaledColumn(column, divisor)
    requires column.relativeValue < 0.0
    ensures var layout := LayoutOf(columnHeight, (domainMin, domainMax), e);
      DisplayHeight(column, columnHeight, layout)
      == (columnHeight - layout.positiveHeight) * (column.value / domainMin)
  {
    var layout := LayoutOf(columnHeight, (domainMin, domainMax), e);
    LayoutAroundZero(columnHeight, domainMin, domainMax, e);
    NegativeShare(column, columnHeight, layout, e.mostNegativeRelValue, e.mostNegativeValue, divisor, domainMin);
  }

  /** With a domain `[0, max]` and columns of both signs, the whole height
      is above the zero line: a non-negative column is as tall as its
      value's share of the domain maximum, and a negative one has no room. */
  lemma ZeroBasedDomainShare<T>(e: Extremes, column: Column<T>, columnHeight: real,
                                domainMax: real, divisor: real)
    requires 0.0 < domainMax
    requires e.mostNegativeRelValue < 0.0 < e.mostPositiveRelValue
    requires ScaledBy(e, divisor) && ScaledColumn(column, divisor)
    ensures var layout := LayoutOf(columnHeight, (0.0, domainMax), e);
      var h := DisplayHeight(column, columnHeight, layout);
      && layout.positiveHeight == columnHeight
      && (column.relativeValue >= 0.0 ==> h == columnHeight * (column.value / domainMax))
      && (column.relativeValue < 0.0 ==> h == 0.0)
  {
    var layout := LayoutOf(columnHeight, (0.0, domainMax), e);
    assert layout.positiveCorrection == 1.0 / e.mostPositiveRelValue * (e.mostPositiveValue / domainMax);
    if column.relativeValue >= 0.0 {
      PositiveShare(column, columnHeight, layout, e.mostPositiveRelValue, e.mostPositiveValue, divisor, domainMax);
    }
  }

  /** With no negative columns the code skips the `1 / mostPositiveRelValue`
      correction, so under a domain with a positive maximum a column is its
      value's share of that maximum times the largest relative value: the
      share itself only when that value is 1, as under the maximum divisor. */
  lemma PositiveOnlyDomainShare<T>(e: Extremes, column: Column<T>, columnHeight: real,
                                   domainMin: real, domainMax: real, divisor: real)
    requires domainMin <= 0.0 < domainMax
    requires e.mostNegativeRelValue == 0.0 <= e.mostPositiveRelValue
    requires ScaledBy(e, divisor) && ScaledColumn(column, divisor)
    requires column.relativeValue >= 0.0
    ensures var layout := LayoutOf(columnHeight, (domainMin, domainMax), e);
      var h := DisplayHeight(column, columnHeight, layout);
      && h == layout.positiveHeight * (column.value / domainMax) * e.mostPositiveRelValue
      && (e.mostPositiveRelValue == 1.0 ==> h == layout.positiveHeight * (column.value / domainMax))
  {
    var layout := LayoutOf(columnHeight, (domainMin, domainMax), e);
    var ph, r, p := layout.positiveHeight, column.relativeValue, e.mostPositiveRelValue;
    assert e.mostPositiveValue == p * divisor;
    assert layout.positiveCorrection == 1.0 * (e.mostPositiveValue / domainMax);
    assert ph * r * ((p * divisor) / domainMax) == ph * ((r * divisor) / domainMax) * p;
  }

  /** The mirror case: with no positive columns and a domain with a negative
      minimum, a column is its value's share of that minimum times the
      magnitude of the lowest relative value. */
  lemma NegativeOnlyDomainShare<T>(e: Extremes, column: Column<T>, columnHeight: real,
                                   domainMin: real, domainMax: real, divisor: real)
    requires domainMin < 0.0 <= domainMax
    requires e.mostNegativeRelValue <= 0.0 == e.mostPositiveRelValue
    requires ScaledBy(e, divisor) && ScaledColumn(column, divisor)
    requires column.relativeValue < 0.0
    ensures var layout := LayoutOf(columnHeight, (domainMin, domainMax), e);
      var h := DisplayHeight(column, columnHeight, layout);
      && h == (columnHeight - layout.positiveHeight) * (column.value / domainMin) * -e.mostNegativeRelValue
      && (e.mostNegativeRelValue == -1.0 ==> h == (columnHeight - layout.positiveHeight) * (column.value / domainMin))
  {
    var layout := LayoutOf(columnHeight, (domainMin, domainMax), e);
    var room, r, n := layout.positiveHeight - columnHeight, column.relativeValue, e.mostNegativeRelValue;
    assert e.mostNegativeValue == n * divisor;
    assert layout.negativeCorrection == 1.0 * (e.mostNegativeValue / domainMin);
    assert room * r * ((n * divisor) / domainMin) == -room * ((r * divisor) / domainMin) * -n;
  }

  /** Values 10 and 30 normalised by their sum and plotted at height 100:
      under the domain 30 the column at the domain maximum is 75 tall rather
      than 100, and under the domain [-30, 30] it is 37.5 rather than the 50
      above the zero line. */
  lemma DomainShortfallExample(inputs: seq<real>)
    requires inputs == [10.0, 30.0]
    ensures SumOf(inputs, Self) == 40.0
    ensures var series := ToColumns(RelativeOf(inputs, Self, 40.0), Self);
      var e := ExtremesOf(series);
      var oneEnded := LayoutOf(100.0, NormalizeDomain(Scalar(30.0)), e);
      var twoEnded := LayoutOf(100.0, NormalizeDomain(Pair(-30.0, 30.0)), e);
      && series[1].value == 30.0
      && DisplayHeight(series[1], 100.0, oneEnded) == 75.0
      && twoEnded.positiveHeight == 50.0
      && DisplayHeight(series[1], 100.0, twoEnded) == 37.5
  {
    assert inputs[..1] == [10.0] && inputs[..1][..0] == [];
    assert SumOf([10.0], Self) == 10.0;
    var series := ToColumns(RelativeOf(inputs, Self, 40.0), Self);
    assert series == [Column(10.0, 0.25, 10.0), Column(30.0, 0.75, 30.0)];
    assert series[..1] == [series[0]] && series[..1][..0] == [];
    assert ExtremesOf([series[0]]) == Extremes(0.0, 0.0, 0.25, 10.0);
    assert ExtremesOf(series) == Extremes(0.0, 0.0, 0.75, 30.0);
  }

  /** The branch of `plot()` for a domain around 0 and columns of both
      signs. */
  lemma LayoutAroundZero(columnHeight: real, domainMin: real, domainMax: real, e: Extremes)
    requires domainMin < 0.0 < domainMax
    requires e.mostNegativeRelValue < 0.0 < e.mostPositiveRelValue
    ensures LayoutOf(columnHeight, (domainMin, domainMax), e)
         == Layout(columnHeight * (domainMax / (domainMax - domainMin)),
                   1.0 / -e.mostNegativeRelValue * (e.mostNegativeValue / domainMin),
                   1.0 / e.mostPositiveRelValue * (e.mostPositiveValue / domainMax))
  {
  }

  /** A non-negative column corrected by `1 / p * (pv / m)`, where the
      extreme `pv` and the column's value are `p` and its relative value
      scaled by `d`, is the value's share of `m` above the zero line. */
  lemma PositiveShare<T>(column: Column<T>, columnHeight: real, layout: Layout, p: real, pv: real, d: real, m: real)
    requires column.relativeValue >= 0.0 && p != 0.0 && m != 0.0
    requires pv == p * d && ScaledColumn(column, d) && layout.positiveCorrection == 1.0 / p * (pv / m)
    ensures DisplayHeight(column, columnHeight, layout) == layout.positiveHeight * (column.value / m)
  {
    var h, r := layout.positiveHeight, column.relativeValue;
    assert layout.positiveCorrection == d / m;
    assert h * r * (d / m) == h * ((r * d) / m);
  }

  /** A negative column corrected by `1 / -n * (nv / m)`, where the extreme
      `nv` and the column's value are `n` and its relative value scaled by
      `d`, is the value's share of `m` below the zero line. */
  lemma NegativeShare<T>(column: Column<T>, columnHeight: real, layout: Layout, n: real, nv: real, d: real, m: real)
    requires column.relativeValue < 0.0 && n != 0.0 && m != 0.0
    requires nv == n * d && ScaledColumn(column, d) && layout.negativeCorrection == 1.0 / -n * (nv / m)
    ensures DisplayHeight(column, columnHeight, layout) == (columnHeight - layout.positiveHeight) * (column.value / m)
  {
    var h, r := layout.positiveHeight - columnHeight, column.relativeValue;
    assert layout.negativeCorrection == -(d / m);
    assert h * r * -(d / m) == (columnHeight - layout.positiveHeight) * ((r * d) / m);
  }

  /** A column whose value is its relative value times `divisor`. */
  predicate ScaledColumn<T>(column: Column<T>, divisor: real)
  {
    column.relativeValue * divisor == column.value
  }

  /** The value extremes are the relative-value extremes times `divisor`. */
  predicate ScaledBy(e: Extremes, divisor: real)
  {
    && e.mostPositiveValue == e.mostPositiveRelValue * divisor
    && e.mostNegativeValue == e.mostNegativeRelValue * divisor
  }

  /** When every value is its relative value times one positive divisor,
      the scan finds value extremes that are the relative-value extremes
      times that divisor. */
  lemma {:induction false} ValueExtremesScale<T>(series: seq<Column<T>>, divisor: real)
    requires divisor > 0.0
    requires forall k :: 0 <= k < |series| ==> ScaledColumn(series[k], divisor)
    ensures ScaledBy(ExtremesOf(series), divisor)
    decreases |series|
  {
    if |series| > 0 {
      var prefix := series[..|series| - 1];
      forall k | 0 <= k < |prefix|
        ensures ScaledColumn(prefix[k], divisor)
      {
        assert prefix[k] == series[k];
      }
      ValueExtremesScale(prefix, divisor);
      ScanStepScales(ExtremesOf(prefix), series[|series| - 1], divisor);
    }
  }

  lemma ScanStepScales<T>(e: Extremes, column: Column<T>, divisor: real)
    requires divisor > 0.0 && ScaledColumn(column, divisor)
    requires ScaledBy(e, divisor)
    ensures ScaledBy(ScanStep(e, column), divisor)
  {
    var r := column.relativeValue;
    if r < e.mostNegativeRelValue {
      MulStrict(r, e.mostNegativeRelValue, divisor);
    } else {
      MulMonotone(e.mostNegativeRelValue, r, divisor);
      if r > e.mostPositiveRelValue {
        MulStrict(e.mostPositiveRelValue, r, divisor);
      } else {
        MulMonotone(r, e.mostPositiveRelValue, divisor);
      }
    }
  }

  lemma MulStrict(a: real, b: real, d: real)
    requires a < b && d > 0.0
    ensures a * d < b * d
  {
  }

  lemma MulMonotone(a: real, b: real, d: real)
    requires a <= b && d > 0.0
    ensures a * d <= b * d
  {
  }

  function Self(x: real): real { x }

  /** The worked case: values -5, 5 and 10 normalised by the max divisor and
      plotted at height 150 put the zero line 100 down. */
  lemma WorkedExample(inputs: seq<real>)
    requires inputs == [-5.0, 5.0, 10.0]
    ensures MaxOf(inputs, Self) == 10.0
    ensures var series := ToColumns(RelativeOf(inputs, Self, 10.0), Self);
      ExtremesOf(series) == Extremes(-0.5, -5.0, 1.0, 10.0)
      && LayoutOf(150.0, (0.0, 0.0), ExtremesOf(series)).positiveHeight == 100.0
  {
    assert inputs[..2][..1] == [-5.0] && inputs[..2] == [-5.0, 5.0];
    assert inputs[..2][..1][..0] == [];
    assert MaxOf([-5.0], Self) == 0.0;
    assert MaxOf(inputs[..2], Self) == 5.0;
    var series := ToColumns(RelativeOf(inputs, Self, 10.0), Self);
    assert series == [Column(-5.0, -0.5, -5.0), Column(5.0, 0.5, 5.0), Column(10.0, 1.0, 10.0)];
    assert series[..2][..1] == [series[0]] && series[..2] == [series[0], series[1]];
    assert series[..2][..1][..0] == [];
    assert ExtremesOf([series[0]]) == Extremes(-0.5, -5.0, 0.0, 0.0);
    assert ExtremesOf(series[..2]) == Extremes(-0.5, -5.0, 0.5, 5.0);
  }
}
