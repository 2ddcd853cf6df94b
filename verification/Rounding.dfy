/** Python's `round(x, digits)` on exact reals: to the nearest grid point, ties to the even one. */
module Rounding {

  /** The numbers of digits the scripts round to. */
  datatype Digits = Two | Four | Six

  function Scaled(x: real, digits: Digits): real {
    match digits
    case Two => x * 100.0
    case Four => x * 10000.0
    case Six => x * 1000000.0
  }

  function Unscaled(n: real, digits: Digits): real {
    match digits
    case Two => n / 100.0
    case Four => n / 10000.0
    case Six => n / 1000000.0
  }

  function NearestEven(x: real): int {
    var floor := x.Floor;
    var rest := x - floor as real;
    if rest < 0.5 || (rest == 0.5 && floor % 2 == 0) then floor else floor + 1
  }

  function Round(x: real, digits: Digits): real {
    Unscaled(NearestEven(Scaled(x, digits)) as real, digits)
  }

  predicate IsWhole(x: real) {
    x.Floor as real == x
  }

  /** `x` has at most that many decimal digits. */
  predicate OnGrid(x: real, digits: Digits) {
    IsWhole(Scaled(x, digits))
  }

  lemma NearestMonotone(x: real, y: real)
    requires x <= y
    ensures NearestEven(x) <= NearestEven(y)
  {
    assert x.Floor <= y.Floor;
  }

  lemma RoundMonotone(x: real, y: real, digits: Digits)
    requires x <= y
    ensures Round(x, digits) <= Round(y, digits)
  {
    NearestMonotone(Scaled(x, digits), Scaled(y, digits));
  }

  /** A rounded number is on the grid, and exactly the numbers on the grid are not changed. */
  lemma RoundGrid(x: real, digits: Digits)
    ensures OnGrid(Round(x, digits), digits)
    ensures Round(x, digits) == x <==> OnGrid(x, digits)
  {
    assert Scaled(Round(x, digits), digits) == NearestEven(Scaled(x, digits)) as real;
  }

  lemma RoundClose(x: real, digits: Digits)
    ensures -Unscaled(0.5, digits) <= Round(x, digits) - x <= Unscaled(0.5, digits)
  {
  }

  /** The result is the nearest multiple of the unit, and of two that are equally near the even one. */
  lemma RoundIff(x: real, digits: Digits, n: int)
    ensures Round(x, digits) == Unscaled(n as real, digits) <==>
            var slip := Scaled(x, digits) - n as real;
            -0.5 < slip < 0.5 || ((slip == 0.5 || slip == -0.5) && n % 2 == 0)
  {
    NearestIff(Scaled(x, digits), n);
  }

  lemma NearestIff(x: real, n: int)
    ensures NearestEven(x) == n <==>
            var slip := x - n as real;
            -0.5 < slip < 0.5 || ((slip == 0.5 || slip == -0.5) && n % 2 == 0)
  {
    assert n < x.Floor - 1 || n == x.Floor - 1 || n == x.Floor || n == x.Floor + 1 || n > x.Floor + 1;
  }

  /** Rounding never crosses a grid point. */
  lemma RoundAtMost(x: real, bound: real, digits: Digits)
    requires x <= bound && OnGrid(bound, digits)
    ensures Round(x, digits) <= bound
  {
    RoundMonotone(x, bound, digits);
    RoundGrid(bound, digits);
  }

  lemma RoundAtLeast(x: real, bound: real, digits: Digits)
    requires bound <= x && OnGrid(bound, digits)
    ensures bound <= Round(x, digits)
  {
    RoundMonotone(bound, x, digits);
    RoundGrid(bound, digits);
  }

  lemma WholeSum(x: real, y: real)
    requires IsWhole(x) && IsWhole(y)
    ensures IsWhole(x + y)
  {
    assert x + y == (x.Floor + y.Floor) as real;
  }

  lemma GridSum(x: real, y: real, digits: Digits)
    requires OnGrid(x, digits) && OnGrid(y, digits)
    ensures OnGrid(x + y, digits)
  {
    WholeSum(Scaled(x, digits), Scaled(y, digits));
    assert Scaled(x + y, digits) == Scaled(x, digits) + Scaled(y, digits);
  }

  lemma WholeOnGrid(n: int, digits: Digits)
    ensures OnGrid(n as real, digits)
  {
    assert Scaled(n as real, digits) ==
           (if digits.Two? then 100 * n else if digits.Four? then 10000 * n else 1000000 * n) as real;
  }

  function Max(a: real, b: real): real {
    if a < b then b else a
  }

  function Min(a: real, b: real): real {
    if b < a then b else a
  }

  /** `_clamp` */
  function Clamp(value: real, minimum: real, maximum: real): real {
    Max(minimum, Min(maximum, value))
  }

  /** A value clamped between grid points is still between them when it is rounded. */
  lemma ClampRounds(value: real, low: real, high: real, digits: Digits)
    requires low <= high && OnGrid(low, digits) && OnGrid(high, digits)
    ensures low <= Round(Clamp(value, low, high), digits) <= high
  {
    RoundAtLeast(Clamp(value, low, high), low, digits);
    RoundAtMost(Clamp(value, low, high), high, digits);
  }
}
