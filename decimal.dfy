/**
  Exact decimals with explicit rounding, as the `inf.Dec` package provides
  them. A decimal is modelled by its value, a `real`: the package's
  comparisons are by value, so the scale of a decimal carries no meaning here.
 */
module Decimal {

  /** The rounding modes the engine uses (named as in `inf`). */
  datatype RoundingMode =
    | HalfUp  // to nearest, halves away from zero
    | Ceil    // toward +infinity
    | Down    // toward zero
    | Up      // away from zero

  /** 10 to the power n. */
  function Pow10(n: nat): (p: nat)
    ensures p >= 1
  {
    if n == 0 then 1 else 10 * Pow10(n - 1)
  }

  /** The value of one unit in the last of `scale` decimal places, inverted: 10^scale. */
  function Unit(scale: nat): (u: real)
    ensures u >= 1.0
  {
    Pow10(scale) as real
  }

  function Abs(x: real): real {
    if x < 0.0 then -x else x
  }

  /** The integer `q` rounds to under `mode`. */
  function RoundToInt(q: real, mode: RoundingMode): (n: int)
    ensures mode == Down ==> Abs(n as real) <= Abs(q) < Abs(n as real) + 1.0
    ensures mode == Down ==> (q >= 0.0 ==> n >= 0) && (q <= 0.0 ==> n <= 0)
    ensures mode == Up ==> Abs(q) <= Abs(n as real) < Abs(q) + 1.0
    ensures mode == Up ==> (q >= 0.0 ==> n >= 0) && (q <= 0.0 ==> n <= 0)
    ensures mode == Ceil ==> q <= n as real < q + 1.0
    ensures mode == HalfUp ==> Abs(n as real - q) <= 0.5
    ensures mode == HalfUp && q >= 0.0 ==> n as real - 0.5 <= q < n as real + 0.5
    ensures mode == HalfUp && q < 0.0 ==> n as real - 0.5 < q <= n as real + 0.5
  {
    match mode
    case Down => if q >= 0.0 then q.Floor else -((-q).Floor)
    case Up => if q >= 0.0 then -((-q).Floor) else q.Floor
    case Ceil => -((-q).Floor)
    case HalfUp => if q >= 0.0 then (q + 0.5).Floor else -((-q + 0.5).Floor)
  }

  /** Every mode leaves an integer unchanged. */
  lemma RoundToIntExact(n: int, mode: RoundingMode)
    ensures RoundToInt(n as real, mode) == n
  {
  }

  /** `v` expressed in units of the last of `scale` decimal places. */
  function Scaled(v: real, scale: nat): real {
    v * Unit(scale)
  }

  /** `v` rounded to `scale` decimal places under `mode`. */
  function Round(v: real, scale: nat, mode: RoundingMode): real {
    RoundToInt(Scaled(v, scale), mode) as real / Unit(scale)
  }

  /** The quotient `x / y` rounded to `scale` decimal places (`inf.Dec.QuoRound`). */
  function QuoRound(x: real, y: real, scale: nat, mode: RoundingMode): real
    requires y != 0.0
  {
    Round(x / y, scale, mode)
  }

  /** The quotient rounded half-up to eight places, the engine's usual division. */
  function HalfUp8(x: real, y: real): real
    requires y != 0.0
  {
    QuoRound(x, y, 8, HalfUp)
  }

  /** Comparing a count of units with a scaled value is comparing values. */
  lemma UnitsCompare(n: real, v: real, scale: nat)
    ensures (n <= Scaled(v, scale)) == (n / Unit(scale) <= v)
    ensures (n >= Scaled(v, scale)) == (n / Unit(scale) >= v)
    ensures Scaled(v, scale) / Unit(scale) == v
  {
    var p := Unit(scale);
    assert Scaled(v, scale) == v * p;
    assert n / p * p == n;
  }

  /** A value already on the grid of `scale` digits is left unchanged. */
  lemma RoundExact(v: real, scale: nat, mode: RoundingMode, n: int)
    requires Scaled(v, scale) == n as real
    ensures Round(v, scale, mode) == v
  {
    RoundToIntExact(n, mode);
    UnitsCompare(n as real, v, scale);
  }

  /** Rounding to no decimal places is rounding to an integer. */
  lemma RoundToZeroPlaces(v: real, mode: RoundingMode)
    ensures Round(v, 0, mode) == RoundToInt(v, mode) as real
  {
    assert Unit(0) == 1.0;
    assert Scaled(v, 0) == v;
  }

  /** A quotient already on the grid of eight digits is computed exactly. */
  lemma HalfUp8Exact(x: real, y: real, n: int)
    requires y != 0.0
    requires x / y * 100_000_000.0 == n as real
    ensures HalfUp8(x, y) == x / y
  {
    assert Unit(8) == 100_000_000.0;
    RoundExact(x / y, 8, HalfUp, n);
  }

  /** Rounding toward zero never increases a non-negative value. */
  lemma RoundDownBounds(v: real, scale: nat)
    requires v >= 0.0
    ensures 0.0 <= Round(v, scale, Down) <= v
  {
    var n := RoundToInt(Scaled(v, scale), Down);
    assert Scaled(v, scale) == v * Unit(scale);
    assert 0 <= n && n as real <= Scaled(v, scale);
    UnitsCompare(n as real, v, scale);
  }

  /** Rounding toward +infinity never decreases a value. */
  lemma RoundCeilBounds(v: real, scale: nat)
    ensures v <= Round(v, scale, Ceil)
  {
    var n := RoundToInt(Scaled(v, scale), Ceil);
    assert n as real >= Scaled(v, scale);
    UnitsCompare(n as real, v, scale);
  }

  /** Every mode rounds to an integer less than one away. */
  lemma RoundToIntWithinOne(q: real, mode: RoundingMode)
    ensures q - 1.0 < RoundToInt(q, mode) as real < q + 1.0
  {
  }

  /** Rounding in any mode moves a value by at most one unit in the last place. */
  lemma RoundError(v: real, scale: nat, mode: RoundingMode)
    ensures Abs(Round(v, scale, mode) - v) <= 1.0 / Unit(scale)
  {
    var n := RoundToInt(Scaled(v, scale), mode);
    RoundToIntWithinOne(Scaled(v, scale), mode);
    UnitsWithin(n as real, v, Unit(scale), Scaled(v, scale));
  }

  /** A count of units less than one away from `v*p` is, divided by `p`, at most `1/p` away from `v`. */
  lemma UnitsWithin(n: real, v: real, p: real, vp: real)
    requires p >= 1.0 && vp == v * p
    requires vp - 1.0 < n < vp + 1.0
    ensures Abs(n / p - v) <= 1.0 / p
  {
    assert n / p - v == (n - vp) / p;
    if n >= vp {
      assert (n - vp) / p <= 1.0 / p;
    } else {
      assert (vp - n) / p <= 1.0 / p;
    }
  }

  /** Half-up rounding moves a value by at most half a unit in the last place. */
  lemma RoundHalfUpBounds(v: real, scale: nat)
    ensures Abs(Round(v, scale, HalfUp) - v) <= 0.5 / Unit(scale)
  {
    var n := RoundToInt(Scaled(v, scale), HalfUp);
    var lo := n as real - 0.5;
    var hi := n as real + 0.5;
    assert lo <= Scaled(v, scale) <= hi;
    UnitsCompare(lo, v, scale);
    UnitsCompare(hi, v, scale);
    var p := Unit(scale);
    assert lo / p == n as real / p - 0.5 / p;
    assert hi / p == n as real / p + 0.5 / p;
  }
}
