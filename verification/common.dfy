/** Vocabulary shared by every module: optional values, results, and the one rounding function. */
module Common {

  datatype Option<+T> = None | Some(value: T)

  datatype Result<+T, +E> = Ok(value: T) | Err(error: E)

  function Min(a: real, b: real): real { if a <= b then a else b }

  function Max(a: real, b: real): real { if a >= b then a else b }

  function MinInt(a: int, b: int): int { if a <= b then a else b }

  function MaxInt(a: int, b: int): int { if a >= b then a else b }

  /** The helper `clamp` of `bot/utils/math.py`: the lower bound wins when the bounds cross. */
  function Clamp(value: real, minimum: real, maximum: real): real {
    Max(minimum, Min(value, maximum))
  }

  /** Rounding to the nearest whole number of grid units, ties to the even neighbour. A price is counted in
      units of 0.0001 and money in cents, so `round(x, 4)` and `round(x, 2)` are this function on those grids.
      Every theorem of the project uses it only through the three lemmas below. */
  function Round(x: real): int {
    var floor := x.Floor;
    var rest := x - floor as real;
    if rest < 0.5 then floor
    else if rest > 0.5 then floor + 1
    else if floor % 2 == 0 then floor
    else floor + 1
  }

  /** Grid points are fixed. */
  lemma RoundFixesGrid(n: int)
    ensures Round(n as real) == n
  {
  }

  /** The error is at most half a unit. */
  lemma RoundWithinHalf(x: real)
    ensures -0.5 <= Round(x) as real - x <= 0.5
  {
  }

  /** Rounding keeps the order. */
  lemma RoundMonotone(x: real, y: real)
    requires x <= y
    ensures Round(x) <= Round(y)
  {
    if x.Floor < y.Floor {
      assert Round(x) <= x.Floor + 1 <= y.Floor <= Round(y);
    }
  }

  /** Rounding commutes with a whole-unit bound, from either side. */
  lemma RoundBounded(lo: int, x: real, hi: int)
    requires lo as real <= x <= hi as real
    ensures lo <= Round(x) <= hi
  {
    RoundMonotone(lo as real, x);
    RoundMonotone(x, hi as real);
    RoundFixesGrid(lo);
    RoundFixesGrid(hi);
  }

  /** Multiplying by a non-negative number keeps the order. */
  lemma MulMonotone(a: real, b: real, c: real)
    requires a <= b && c >= 0.0
    ensures a * c <= b * c
  {
  }

  function Sum(xs: seq<int>): int {
    if xs == [] then 0 else xs[0] + Sum(xs[1..])
  }

  lemma {:induction false} SumConcat(xs: seq<int>, ys: seq<int>)
    ensures Sum(xs + ys) == Sum(xs) + Sum(ys)
  {
    if xs == [] {
      assert xs + ys == ys;
    } else {
      assert (xs + ys)[1..] == xs[1..] + ys;
      SumConcat(xs[1..], ys);
    }
  }

  lemma SumOne(a: int)
    ensures Sum([a]) == a
  {
  }

  lemma SumTwo(a: int, b: int)
    ensures Sum([a, b]) == a + b
  {
    assert [a, b][1..] == [b];
    SumOne(b);
  }
}
