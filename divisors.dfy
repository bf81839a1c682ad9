/** Divisor operators: per-batch reducers that turn a batch of inputs into the
    single number relative values are divided by. Each operator's body runs
    once per emitted batch; the stream around it is not modelled, so every
    operator here is a method over one batch `seq<T>`. Values are reals, so
    the source's `valueSelector(input) || 0` guard is the selected value
    itself. */
module Divisors {

  /** Left fold of the selected values in batch order: the sum the loop builds. */
  function SumOf<T>(inputs: seq<T>, valueSelector: T -> real): real
    decreases |inputs|
  {
    if |inputs| == 0 then 0.0
    else SumOf(inputs[..|inputs| - 1], valueSelector) + valueSelector(inputs[|inputs| - 1])
  }

  /** Running maximum starting at 0, updated only when a value exceeds it. */
  function MaxOf<T>(inputs: seq<T>, valueSelector: T -> real): real
    decreases |inputs|
  {
    if |inputs| == 0 then 0.0
    else
      var m := MaxOf(inputs[..|inputs| - 1], valueSelector);
      var v := valueSelector(inputs[|inputs| - 1]);
      if v > m then v else m
  }

  /** The `sum` divisor operator (and the identical older one): adds each
      selected value to an accumulator that starts at 0. */
  method Sum<T>(inputs: seq<T>, valueSelector: T -> real) returns (sum: real)
    ensures sum == SumOf(inputs, valueSelector)
    ensures inputs == [] ==> sum == 0.0
  {
    sum := 0.0;
    for i := 0 to |inputs|
      invariant sum == SumOf(inputs[..i], valueSelector)
    {
      assert inputs[..i + 1][..i] == inputs[..i];
      sum := sum + valueSelector(inputs[i]);
    }
    assert inputs[..|inputs|] == inputs;
  }

  /** The `max` divisor operator: a running maximum that starts at 0, so
      negative values never lower it. */
  method Max<T>(inputs: seq<T>, valueSelector: T -> real) returns (max: real)
    ensures max == MaxOf(inputs, valueSelector)
    ensures max >= 0.0
    ensures forall i :: 0 <= i < |inputs| ==> valueSelector(inputs[i]) <= max
  {
    max := 0.0;
    for i := 0 to |inputs|
      invariant max == MaxOf(inputs[..i], valueSelector)
    {
      assert inputs[..i + 1][..i] == inputs[..i];
      var value := valueSelector(inputs[i]);
      if value > max {
        max := value;
      }
    }
    assert inputs[..|inputs|] == inputs;
    MaxIsUpperBound(inputs, valueSelector);
  }

  // ---------------------------------------------------------------------
  // Properties of the sum

  lemma SumAppend<T>(inputs: seq<T>, x: T, valueSelector: T -> real)
    ensures SumOf(inputs + [x], valueSelector) == SumOf(inputs, valueSelector) + valueSelector(x)
  {
    assert (inputs + [x])[..|inputs|] == inputs;
  }

  lemma {:induction false} SumConcat<T>(a: seq<T>, b: seq<T>, valueSelector: T -> real)
    ensures SumOf(a + b, valueSelector) == SumOf(a, valueSelector) + SumOf(b, valueSelector)
    decreases |b|
  {
    if |b| == 0 {
      assert a + b == a;
    } else {
      var b' := b[..|b| - 1];
      var x := b[|b| - 1];
      assert b == b' + [x];
      assert a + b == (a + b') + [x];
      SumConcat(a, b', valueSelector);
      SumAppend(a + b', x, valueSelector);
      SumAppend(b', x, valueSelector);
    }
  }

  /** With non-negative values the sum is non-negative and bounds every value. */
  lemma {:induction false} SumBoundsNonNegative<T>(inputs: seq<T>, valueSelector: T -> real)
    requires forall i :: 0 <= i < |inputs| ==> valueSelector(inputs[i]) >= 0.0
    ensures SumOf(inputs, valueSelector) >= 0.0
    ensures forall i :: 0 <= i < |inputs| ==> valueSelector(inputs[i]) <= SumOf(inputs, valueSelector)
    decreases |inputs|
  {
    if |inputs| > 0 {
      var prefix := inputs[..|inputs| - 1];
      SumBoundsNonNegative(prefix, valueSelector);
      forall i | 0 <= i < |inputs|
        ensures valueSelector(inputs[i]) <= SumOf(inputs, valueSelector)
      {
        if i < |inputs| - 1 {
          assert inputs[i] == prefix[i];
        }
      }
    }
  }

  /** Over reals the sum does not depend on the order of the batch. */
  lemma {:induction false} SumPermutation<T>(a: seq<T>, b: seq<T>, valueSelector: T -> real)
    requires multiset(a) == multiset(b)
    ensures SumOf(a, valueSelector) == SumOf(b, valueSelector)
    decreases |a|
  {
    if |a| == 0 {
      assert |b| == |multiset(b)| == 0;
    } else {
      var x := a[|a| - 1];
      var a' := a[..|a| - 1];
      assert a == a' + [x];
      assert x in multiset(b);
      var j :| 0 <= j < |b| && b[j] == x;
      var b' := b[..j] + b[j + 1..];
      assert b == b[..j] + [x] + b[j + 1..];
      assert multiset(b') == multiset(b[..j]) + multiset(b[j + 1..]);
      assert multiset(b) == multiset(b') + multiset{x};
      assert multiset(a) == multiset(a') + multiset{x};
      assert multiset(a') == multiset(a) - multiset{x} == multiset(b) - multiset{x} == multiset(b');
      SumPermutation(a', b', valueSelector);
      SumConcat(b[..j] + [x], b[j + 1..], valueSelector);
      SumConcat(b[..j], b[j + 1..], valueSelector);
      SumAppend(b[..j], x, valueSelector);
    }
  }

  // ---------------------------------------------------------------------
  // Properties of the maximum

  lemma {:induction false} MaxIsUpperBound<T>(inputs: seq<T>, valueSelector: T -> real)
    ensures MaxOf(inputs, valueSelector) >= 0.0
    ensures forall i :: 0 <= i < |inputs| ==> valueSelector(inputs[i]) <= MaxOf(inputs, valueSelector)
    decreases |inputs|
  {
    if |inputs| > 0 {
      var prefix := inputs[..|inputs| - 1];
      MaxIsUpperBound(prefix, valueSelector);
      forall i | 0 <= i < |inputs|
        ensures valueSelector(inputs[i]) <= MaxOf(inputs, valueSelector)
      {
        if i < |inputs| - 1 {
          assert inputs[i] == prefix[i];
        }
      }
    }
  }

  /** The maximum is either the starting 0 or the value of some input. */
  lemma {:induction false} MaxIsAttained<T>(inputs: seq<T>, valueSelector: T -> real)
    ensures MaxOf(inputs, valueSelector) == 0.0
         || exists i :: 0 <= i < |inputs| && valueSelector(inputs[i]) == MaxOf(inputs, valueSelector)
    decreases |inputs|
  {
    if |inputs| > 0 {
      var prefix := inputs[..|inputs| - 1];
      MaxIsAttained(prefix, valueSelector);
      if MaxOf(inputs, valueSelector) != 0.0 {
        if valueSelector(inputs[|inputs| - 1]) > MaxOf(prefix, valueSelector) {
          assert valueSelector(inputs[|inputs| - 1]) == MaxOf(inputs, valueSelector);
        } else {
          var i :| 0 <= i < |prefix| && valueSelector(prefix[i]) == MaxOf(prefix, valueSelector);
          assert inputs[i] == prefix[i];
        }
      }
    }
  }

  /** A batch whose values are all negative never raises the maximum above 0. */
  lemma {:induction false} MaxOfNegatives<T>(inputs: seq<T>, valueSelector: T -> real)
    requires forall i :: 0 <= i < |inputs| ==> valueSelector(inputs[i]) < 0.0
    ensures MaxOf(inputs, valueSelector) == 0.0
  {
    MaxIsAttained(inputs, valueSelector);
    MaxIsUpperBound(inputs, valueSelector);
  }
}
