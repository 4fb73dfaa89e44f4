/**
 * Failure-carrying results, integer helpers that mirror Java's `Math.max`,
 * `Math.min` and the truncating `(int)` cast, and properties of the transcendental
 * functions the model takes as parameters.
 */
module Common {

  /** A value or the error an operator raises (an `OperatorException`). */
  datatype Result<+T, +E> = Ok(value: T) | Err(error: E) {
    predicate IsFailure() { Err? }
    function PropagateFailure<U>(): Result<U, E>
      requires Err?
    {
      Err(error)
    }
    function Extract(): T
      requires Ok?
    {
      value
    }
  }

  /** Success without a value, or the error raised. */
  datatype Outcome<+E> = Pass | Fail(error: E) {
    predicate IsFailure() { Fail? }
    function PropagateFailure(): Outcome<E>
      requires Fail?
    {
      this
    }
  }

  datatype Option<+T> = None | Some(value: T)

  function Max(a: int, b: int): int { if a >= b then a else b }
  function Min(a: int, b: int): int { if a <= b then a else b }
  function MaxReal(a: real, b: real): real { if a >= b then a else b }
  function AbsReal(a: real): real { if a < 0.0 then -a else a }

  /** Products of non-negative integers are monotone in both factors. */
  lemma MulMonotone(a: int, b: int, c: int, d: int)
    requires 0 <= a <= c && 0 <= b <= d
    ensures a * b <= c * d
  {
    assert a * b <= c * b;
    assert c * b <= c * d;
  }

  /** A product of non-negative reals is non-negative. */
  lemma NonNegativeProduct(a: real, b: real)
    requires 0.0 <= a && 0.0 <= b
    ensures 0.0 <= a * b
  {
  }

  /** Dividing a product by one of its non-zero factors gives the other. */
  lemma ProductQuotient(g: real, s: real)
    requires s != 0.0
    ensures (g * s) / s == g
  {
  }

  /** Java's `(int) r` cast of a double: truncation toward zero. */
  function JavaIntCast(r: real): (n: int)
    ensures AbsReal(n as real) <= AbsReal(r) < AbsReal(n as real) + 1.0
    ensures (n < 0) ==> (r < 0.0)
  {
    if r >= 0.0 then r.Floor else -((-r).Floor)
  }

  /** The sum of a sequence, added front to back as the source's loops do. */
  function Sum(s: seq<real>): real
  {
    if |s| == 0 then 0.0 else Sum(s[..|s| - 1]) + s[|s| - 1]
  }

  /** `sqrt` behaves as the square root on non-negative arguments. */
  ghost predicate IsSqrt(sqrt: real -> real)
  {
    forall v: real {:trigger sqrt(v)} :: 0.0 <= v ==> 0.0 <= sqrt(v) && sqrt(v) * sqrt(v) == v
  }

  /** A real square root of a positive number is positive. */
  lemma PositiveSqrt(sqrt: real -> real, v: real)
    requires IsSqrt(sqrt) && 0.0 < v
    ensures 0.0 < sqrt(v)
  {
    assert sqrt(v) * sqrt(v) == v;
  }

  /** `f` is non-decreasing on the positive reals (as `log10` is). */
  ghost predicate MonotoneOnPositive(f: real -> real)
  {
    forall a: real, b: real {:trigger f(a), f(b)} :: 0.0 < a <= b ==> f(a) <= f(b)
  }
}
