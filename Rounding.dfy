/** Python's `round(x, digits)` on exact decimal values: the nearest multiple of
    10^-digits, with an exact tie going to the even multiple. */
module Rounding {

  function Pow10(n: nat): (p: nat)
    ensures p >= 1
  {
    if n == 0 then 1 else 10 * Pow10(n - 1)
  }

  /** 10^digits as a real: the number of grid steps per unit. */
  function Scale(digits: nat): (p: real)
    ensures p >= 1.0
  {
    Pow10(digits) as real
  }

  /** True when `x` has at most `digits` decimal places. */
  predicate OnGrid(x: real, digits: nat)
  {
    (x * Scale(digits)).Floor as real == x * Scale(digits)
  }

  /** The integer nearest to `y`; an exact half goes to the even neighbour. */
  function NearestEven(y: real): (k: int)
    ensures -0.5 <= k as real - y <= 0.5
    ensures y - y.Floor as real == 0.5 ==> k % 2 == 0
  {
    var f := y.Floor;
    var frac := y - f as real;
    if frac > 0.5 then f + 1
    else if frac < 0.5 then f
    else if f % 2 == 0 then f else f + 1
  }

  /** Dividing by a positive scale and multiplying back gives the value again. */
  lemma DivideThenScale(a: real, p: real)
    requires p > 0.0
    ensures a / p * p == a
  {
  }

  /** `round(x, digits)`: a whole number of grid steps, namely the step count
      nearest to `x`. */
  function Round(x: real, digits: nat): (r: real)
    ensures r * Scale(digits) == NearestEven(x * Scale(digits)) as real
  {
    DivideThenScale(NearestEven(x * Scale(digits)) as real, Scale(digits));
    NearestEven(x * Scale(digits)) as real / Scale(digits)
  }

  /** The rounded value has at most `digits` decimal places. */
  lemma RoundOnGrid(x: real, digits: nat)
    ensures OnGrid(Round(x, digits), digits)
  {
    assert (NearestEven(x * Scale(digits)) as real).Floor == NearestEven(x * Scale(digits));
  }

  /** The rounded value is at most half a grid step away from `x`. */
  lemma RoundError(x: real, digits: nat)
    ensures -0.5 <= Round(x, digits) * Scale(digits) - x * Scale(digits) <= 0.5
  {
  }

  /** An exact half step is resolved to the even neighbour (banker's rounding). */
  lemma RoundTiesToEven(x: real, digits: nat)
    ensures var y := x * Scale(digits);
      y - y.Floor as real == 0.5 ==> (Round(x, digits) * Scale(digits)).Floor % 2 == 0
  {
    assert (NearestEven(x * Scale(digits)) as real).Floor == NearestEven(x * Scale(digits));
  }

  /** Multiplying by a non-negative scale keeps the order of two reals. */
  lemma ScaleMonotone(a: real, b: real, p: real)
    requires a <= b && p >= 0.0
    ensures a * p <= b * p
  {
    assert (b - a) * p >= 0.0;
  }

  /** Dividing out a positive scale keeps the order of two reals. */
  lemma ScaleReflects(a: real, b: real, p: real)
    requires p > 0.0 && a * p <= b * p
    ensures a <= b
  {
  }

  /** Rounding never moves a value across a grid point: a value at or above a
      number with at most `digits` decimals still is after rounding. */
  lemma RoundKeepsLowerBound(x: real, t: real, digits: nat)
    requires OnGrid(t, digits) && t <= x
    ensures t <= Round(x, digits)
  {
    RoundOnGrid(x, digits);
    RoundError(x, digits);
    ScaleMonotone(t, x, Scale(digits));
    GridStepBelow((t * Scale(digits)).Floor, x * Scale(digits), (Round(x, digits) * Scale(digits)).Floor);
    ScaleReflects(t, Round(x, digits), Scale(digits));
  }

  /** Symmetrically, a value at or below a grid number stays at or below it. */
  lemma RoundKeepsUpperBound(x: real, t: real, digits: nat)
    requires OnGrid(t, digits) && x <= t
    ensures Round(x, digits) <= t
  {
    RoundOnGrid(x, digits);
    RoundError(x, digits);
    ScaleMonotone(x, t, Scale(digits));
    GridStepAbove((t * Scale(digits)).Floor, x * Scale(digits), (Round(x, digits) * Scale(digits)).Floor);
    ScaleReflects(Round(x, digits), t, Scale(digits));
  }

  /** An integer within half a step of `y`, where `y` is at least the integer
      `t`, is itself at least `t`. */
  lemma GridStepBelow(t: int, y: real, k: int)
    requires t as real <= y && -0.5 <= k as real - y
    ensures t <= k
  {
  }

  lemma GridStepAbove(t: int, y: real, k: int)
    requires y <= t as real && k as real - y <= 0.5
    ensures k <= t
  {
  }

  /** The nearest integer reaches an even integer `k` exactly when its argument
      reaches `k - 0.5`: the tie at `k - 0.5` goes up to `k`, away from the odd
      `k - 1`. */
  lemma NearestEvenReaches(y: real, k: int)
    requires k % 2 == 0
    ensures NearestEven(y) >= k <==> y >= k as real - 0.5
  {
    if y == k as real - 0.5 {
      assert y.Floor == k - 1;
    }
  }
}
