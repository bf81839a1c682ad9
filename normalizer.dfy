/** The normaliser: pairs every input of a batch with its relative value
    `value / divisor` and packages the result as columns. Only the body that
    runs once per batch is modelled; the stream plumbing that pairs a batch
    with the divisor computed from that same batch is not. */
module Normalizer {
  import opened Divisors

  /** A normalised input: the input itself, its selected value and that value
      divided by the batch's divisor. */
  datatype Column<T> = Column(input: T, relativeValue: real, value: real)

  /** The pluggable divisor strategy; the custom case is any reducer over a batch. */
  datatype DivisorOperator<!T> = SumDivisor | MaxDivisor | CustomDivisor(reduce: seq<T> -> real)

  function Second<T>(pair: (T, real)): real { pair.1 }

  /** Specification of `relativeValues` on one batch. */
  function RelativeOf<T>(inputs: seq<T>, valueSelector: T -> real, divisor: real): seq<(T, real)>
    requires divisor != 0.0
  {
    seq(|inputs|, i requires 0 <= i < |inputs| => (inputs[i], valueSelector(inputs[i]) / divisor))
  }

  /** `relativeValues` (and the older variant that takes its arguments in a
      different order): pushes `[input, value / divisor]` for every input.
      The source does not guard against a zero divisor; here it is excluded. */
  method RelativeValues<T>(inputs: seq<T>, valueSelector: T -> real, divisor: real)
    returns (result: seq<(T, real)>)
    requires divisor != 0.0
    ensures |result| == |inputs|
    ensures forall i :: 0 <= i < |inputs| ==>
      result[i].0 == inputs[i] && result[i].1 * divisor == valueSelector(inputs[i])
    ensures divisor > 0.0 ==> forall i :: 0 <= i < |inputs| ==>
      (result[i].1 < 0.0 <==> valueSelector(inputs[i]) < 0.0) &&
      (result[i].1 == 0.0 <==> valueSelector(inputs[i]) == 0.0)
    ensures result == RelativeOf(inputs, valueSelector, divisor)
  {
    result := [];
    for i := 0 to |inputs|
      invariant result == RelativeOf(inputs[..i], valueSelector, divisor)
    {
      result := result + [(inputs[i], valueSelector(inputs[i]) / divisor)];
    }
    assert inputs[..|inputs|] == inputs;
  }

  /** The `.map` of `columnar`: every pair becomes a column whose value is
      selected again from the input. */
  function ToColumns<T>(inputsAndRelativeValues: seq<(T, real)>, valueSelector: T -> real): seq<Column<T>>
  {
    seq(|inputsAndRelativeValues|, i requires 0 <= i < |inputsAndRelativeValues| =>
      Column(inputsAndRelativeValues[i].0, inputsAndRelativeValues[i].1, valueSelector(inputsAndRelativeValues[i].0)))
  }

  /** The divisor a strategy computes for one batch. */
  function DivisorOf<T>(operator: DivisorOperator<T>, inputs: seq<T>, valueSelector: T -> real): real
  {
    match operator
    case SumDivisor => SumOf(inputs, valueSelector)
    case MaxDivisor => MaxOf(inputs, valueSelector)
    case CustomDivisor(reduce) => reduce(inputs)
  }

  /** `columnar` for one batch: compute the divisor, the relative values and
      the columns. */
  method Columnar<T>(inputs: seq<T>, valueSelector: T -> real, divisorOperator: DivisorOperator<T>)
    returns (columns: seq<Column<T>>)
    requires DivisorOf(divisorOperator, inputs, valueSelector) != 0.0
    ensures |columns| == |inputs|
    ensures forall i :: 0 <= i < |inputs| ==>
      columns[i].input == inputs[i] && columns[i].value == valueSelector(inputs[i]) &&
      columns[i].relativeValue * DivisorOf(divisorOperator, inputs, valueSelector) == columns[i].value
    ensures columns == ToColumns(RelativeOf(inputs, valueSelector, DivisorOf(divisorOperator, inputs, valueSelector)), valueSelector)
  {
    var divisor: real;
    match divisorOperator {
      case SumDivisor => divisor := Sum(inputs, valueSelector);
      case MaxDivisor => divisor := Max(inputs, valueSelector);
      case CustomDivisor(reduce) => divisor := reduce(inputs);
    }
    var pairs := RelativeValues(inputs, valueSelector, divisor);
    columns := ToColumns(pairs, valueSelector);
  }

  /** `sumAndWeigh`: one pass collects the inputs, their values and the sum,
      then every input is paired with `value / sum`. */
  method SumAndWeigh<T>(inputs: seq<T>, valueSelector: T -> real) returns (result: seq<(T, real)>)
    requires SumOf(inputs, valueSelector) != 0.0
    ensures |result| == |inputs|
    ensures forall i :: 0 <= i < |inputs| ==>
      result[i].0 == inputs[i] && result[i].1 * SumOf(inputs, valueSelector) == valueSelector(inputs[i])
    ensures SumOf(result, Second) == 1.0
    ensures result == RelativeOf(inputs, valueSelector, SumOf(inputs, valueSelector))
  {
    var arr: seq<T> := [];
    var values: seq<real> := [];
    var sum := 0.0;
    for i := 0 to |inputs|
      invariant arr == inputs[..i]
      invariant |values| == i
      invariant forall k :: 0 <= k < i ==> values[k] == valueSelector(inputs[k])
      invariant sum == SumOf(inputs[..i], valueSelector)
    {
      assert inputs[..i + 1][..i] == inputs[..i];
      arr := arr + [inputs[i]];
      var value := valueSelector(inputs[i]);
      values := values + [value];
      sum := sum + value;
    }
    assert inputs[..|inputs|] == inputs;
    result := seq(|arr|, index requires 0 <= index < |arr| => (arr[index], values[index] / sum));
    assert result == RelativeOf(inputs, valueSelector, sum);
    RelativeValuesSumToOne(inputs, valueSelector);
  }

  // ---------------------------------------------------------------------
  // Properties

  lemma {:induction false} RelativeOfSum<T>(inputs: seq<T>, valueSelector: T -> real, divisor: real)
    requires divisor != 0.0
    ensures SumOf(RelativeOf(inputs, valueSelector, divisor), Second) == SumOf(inputs, valueSelector) / divisor
    decreases |inputs|
  {
    if |inputs| > 0 {
      var n := |inputs| - 1;
      RelativeOfSum(inputs[..n], valueSelector, divisor);
      assert RelativeOf(inputs, valueSelector, divisor)[..n] == RelativeOf(inputs[..n], valueSelector, divisor);
    }
  }

  /** With the sum as divisor the relative values add up to 1. */
  lemma RelativeValuesSumToOne<T>(inputs: seq<T>, valueSelector: T -> real)
    requires SumOf(inputs, valueSelector) != 0.0
    ensures SumOf(RelativeOf(inputs, valueSelector, SumOf(inputs, valueSelector)), Second) == 1.0
  {
    var s := SumOf(inputs, valueSelector);
    RelativeOfSum(inputs, valueSelector, s);
    assert s / s == 1.0;
  }

  /** With the maximum as divisor no relative value exceeds 1 and an input
      attaining the maximum gets exactly 1. */
  lemma RelativeValuesOfMax<T>(inputs: seq<T>, valueSelector: T -> real)
    requires MaxOf(inputs, valueSelector) > 0.0
    ensures forall i :: 0 <= i < |inputs| ==> RelativeOf(inputs, valueSelector, MaxOf(inputs, valueSelector))[i].1 <= 1.0
    ensures exists i :: 0 <= i < |inputs| && RelativeOf(inputs, valueSelector, MaxOf(inputs, valueSelector))[i].1 == 1.0
  {
    var m := MaxOf(inputs, valueSelector);
    MaxIsUpperBound(inputs, valueSelector);
    MaxIsAttained(inputs, valueSelector);
    forall i | 0 <= i < |inputs|
      ensures RelativeOf(inputs, valueSelector, m)[i].1 <= 1.0
    {
      QuotientAtMostOne(valueSelector(inputs[i]), m);
    }
    var i :| 0 <= i < |inputs| && valueSelector(inputs[i]) == m;
    assert m / m == 1.0;
    assert RelativeOf(inputs, valueSelector, m)[i].1 == 1.0;
  }

  lemma QuotientAtMostOne(x: real, m: real)
    requires m > 0.0 && x <= m
    ensures x / m <= 1.0
  {
    assert x / m * m == x;
  }

  lemma QuotientInUnitInterval(x: real, m: real)
    requires m > 0.0 && 0.0 <= x <= m
    ensures 0.0 <= x / m <= 1.0
  {
    QuotientAtMostOne(x, m);
    assert x / m * m == x;
  }

  /** `sumAndWeigh` with non-negative values: every weight lies in [0, 1]. */
  lemma WeightsInUnitInterval<T>(inputs: seq<T>, valueSelector: T -> real)
    requires forall i :: 0 <= i < |inputs| ==> valueSelector(inputs[i]) >= 0.0
    requires SumOf(inputs, valueSelector) > 0.0
    ensures forall i :: 0 <= i < |inputs| ==>
      0.0 <= RelativeOf(inputs, valueSelector, SumOf(inputs, valueSelector))[i].1 <= 1.0
  {
    var s := SumOf(inputs, valueSelector);
    SumBoundsNonNegative(inputs, valueSelector);
    forall i | 0 <= i < |inputs|
      ensures 0.0 <= RelativeOf(inputs, valueSelector, s)[i].1 <= 1.0
    {
      QuotientInUnitInterval(valueSelector(inputs[i]), s);
    }
  }
}
