/** Shared vocabulary of the geometry pipeline: an option type, the sign
    bit-flags that plots carry, and the few JavaScript numeric operations
    whose semantics differ from Dafny's. */
module Common {

  datatype Option<+T> = None | Some(value: T)

  /** The value of an optional setting, or its default when it is unset. */
  function GetOr<T>(o: Option<T>, otherwise: T): T
  {
    if o.Some? then o.value else otherwise
  }

  /** The `Values` enum is a two-bit flag set: bit 0 says "some value was
      positive (or zero)", bit 1 says "some value was negative". */
  type Values = bv2

  const ValuesNone: Values := 0
  const ValuesPositive: Values := 1
  const ValuesNegative: Values := 2
  const ValuesBoth: Values := 3

  predicate HasNegative(v: Values) { v & ValuesNegative != 0 }
  predicate HasPositive(v: Values) { v & ValuesPositive != 0 }

  lemma FlagsOr(a: Values, b: Values)
    ensures HasNegative(a | b) <==> HasNegative(a) || HasNegative(b)
    ensures HasPositive(a | b) <==> HasPositive(a) || HasPositive(b)
  {
  }

  function Max(a: real, b: real): real { if a >= b then a else b }
  function Min(a: real, b: real): real { if a <= b then a else b }

  /** `Math.floor` and `Math.ceil`. */
  function Floor(x: real): int { x.Floor }
  function Ceil(x: real): int { -((-x).Floor) }

  /** Truncation toward zero, as JavaScript's `%` uses. */
  function Trunc(x: real): int { if x >= 0.0 then x.Floor else Ceil(x) }

  /** JavaScript's `a % b`: the remainder takes the sign of the dividend. */
  function JsRemainder(a: real, b: real): real
    requires b != 0.0
  {
    a - b * (Trunc(a / b) as real)
  }

  lemma CeilBounds(x: real)
    ensures Ceil(x) as real >= x
    ensures (Ceil(x) as real) - 1.0 < x
  {
  }

  /** A non-positive dividend never has a positive remainder. */
  lemma RemainderOfNonPositive(a: real, b: real)
    requires b > 0.0 && a <= 0.0
    ensures JsRemainder(a, b) <= 0.0
  {
    var q := a / b;
    assert q <= 0.0;
    assert Trunc(q) as real >= q;
    assert b * (Trunc(q) as real) >= b * q;
    assert b * q == a;
  }
}
