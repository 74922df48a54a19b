/** IEEE 754 binary64 rounding of positive reals, as far as the day arithmetic of the engine
    needs it: significands of 53 bits, round to nearest with ties to even (section 4.3.1 of
    IEEE 754-2019). The values rounded here lie between 2^-50 and 2^63, so exponent limits,
    subnormals and infinities never come into play. Scaling by a power of two is written as
    repeated halving or doubling, which keeps every proof linear. */
module Float64 {

  const TWO52: real := 4503599627370496.0
  const TWO53: real := 9007199254740992.0

  /** x / 2^e. */
  function Scaled(x: real, e: int): real
    decreases if e < 0 then -e else e
  {
    if e == 0 then x else if e > 0 then Scaled(x / 2.0, e - 1) else Scaled(2.0 * x, e + 1)
  }

  /** 2^e: the distance between neighbouring floats of exponent e. */
  function Unit(e: int): (u: real)
    ensures u > 0.0
    decreases if e < 0 then -e else e
  {
    if e == 0 then 1.0 else if e > 0 then 2.0 * Unit(e - 1) else Unit(e + 1) / 2.0
  }

  lemma {:induction false} ScaledHalf(x: real, e: int)
    ensures Scaled(x / 2.0, e) == Scaled(x, e) / 2.0
    decreases if e < 0 then -e else e
  {
    if e > 0 {
      ScaledHalf(x / 2.0, e - 1);
    } else if e < 0 {
      ScaledHalf(2.0 * x, e + 1);
      assert 2.0 * (x / 2.0) == (2.0 * x) / 2.0;
    }
  }

  lemma ScaledStep(x: real, e: int)
    ensures Scaled(x, e) == 2.0 * Scaled(x, e + 1)
  {
    if e >= 0 {
      ScaledHalf(x, e);
    } else {
      ScaledHalf(2.0 * x, e + 1);
    }
  }

  lemma ScaledFive(x: real, e: int)
    ensures Scaled(x, e) == 32.0 * Scaled(x, e + 5)
  {
    ScaledStep(x, e);
    ScaledStep(x, e + 1);
    ScaledStep(x, e + 2);
    ScaledStep(x, e + 3);
    ScaledStep(x, e + 4);
  }

  lemma {:induction false} ScaledMonotone(x: real, y: real, e: int)
    requires x <= y
    ensures Scaled(x, e) <= Scaled(y, e)
    decreases if e < 0 then -e else e
  {
    if e > 0 {
      ScaledMonotone(x / 2.0, y / 2.0, e - 1);
    } else if e < 0 {
      ScaledMonotone(2.0 * x, 2.0 * y, e + 1);
    }
  }

  /** A larger exponent scales a positive value down further. */
  lemma {:induction false} ScaledDecreasing(x: real, e: int, f: int)
    requires e <= f && Scaled(x, f) >= 0.0
    ensures Scaled(x, e) >= Scaled(x, f)
    decreases f - e
  {
    if e < f {
      ScaledStep(x, f - 1);
      ScaledDecreasing(x, e, f - 1);
    }
  }

  lemma UnitStep(e: int)
    ensures Unit(e + 1) == 2.0 * Unit(e)
  {
  }

  lemma {:induction false} UnitMonotone(e: int, f: int)
    requires e <= f
    ensures Unit(e) <= Unit(f)
    decreases f - e
  {
    if e < f {
      UnitStep(f - 1);
      UnitMonotone(e, f - 1);
    }
  }

  // ---- exponents ----

  /** e is the exponent of x: at scale 2^e its significand has 53 bits. */
  ghost predicate IsExponent(x: real, e: int) {
    TWO52 <= Scaled(x, e) < TWO53
  }

  function ExponentAbove(x: real): (e: int)
    requires x >= TWO52
    ensures IsExponent(x, e)
    decreases x.Floor
  {
    if x < TWO53 then
      0
    else
      var e := ExponentAbove(x / 2.0);
      ScaledHalf(x, e);
      ScaledStep(x, e);
      e + 1
  }

  /** The exponent of a value that n doublings bring to one or more. */
  function ExponentBelow(x: real, n: nat): (e: int)
    requires x >= Unit(-(n as int))
    ensures IsExponent(x, e)
    decreases n, (TWO52 - x).Floor
  {
    if x >= TWO52 then
      ExponentAbove(x)
    else
      var m := if n == 0 then 0 else n - 1;
      var e := ExponentBelow(2.0 * x, m);
      ScaledHalf(2.0 * x, e);
      assert (2.0 * x) / 2.0 == x;
      ScaledStep(x, e - 1);
      e - 1
  }

  /** The values whose rounding is modelled. */
  predicate InRange(x: real) {
    x >= Unit(-50)
  }

  function Exponent(x: real): (e: int)
    requires InRange(x)
    ensures IsExponent(x, e)
  {
    ExponentBelow(x, 50)
  }

  /** A value is at least 2^52 of its units. */
  lemma {:induction false} UnitsInValue(x: real, e: int)
    requires Scaled(x, e) >= TWO52
    ensures x >= TWO52 * Unit(e)
    decreases if e < 0 then -e else e
  {
    if e > 0 {
      UnitsInValue(x / 2.0, e - 1);
    } else if e < 0 {
      UnitsInValue(2.0 * x, e + 1);
    }
  }

  lemma UnitFive(e: int)
    ensures Unit(e) == 32.0 * Unit(e - 5)
  {
    UnitStep(e - 1);
    UnitStep(e - 2);
    UnitStep(e - 3);
    UnitStep(e - 4);
    UnitStep(e - 5);
  }

  // ---- rounding ----

  /** The nearest integer, ties to even. */
  function NearestEven(x: real): (n: int)
    ensures n as real - 0.5 <= x <= n as real + 0.5
    ensures x == n as real - 0.5 || x == n as real + 0.5 ==> n % 2 == 0
  {
    var f := x.Floor;
    var d := x - f as real;
    if d < 0.5 || (d == 0.5 && f % 2 == 0) then f else f + 1
  }

  /** x rounded to a whole number of units 2^e. */
  function RoundAt(x: real, e: int): real
    decreases if e < 0 then -e else e
  {
    if e == 0 then NearestEven(x) as real
    else if e > 0 then 2.0 * RoundAt(x / 2.0, e - 1)
    else RoundAt(2.0 * x, e + 1) / 2.0
  }

  /** roundTiesToEven of a positive real. */
  function Round(x: real): (y: real)
    requires InRange(x)
    ensures x / 2.0 <= y
  {
    RoundAtError(x, Exponent(x));
    UnitsInValue(x, Exponent(x));
    RoundAt(x, Exponent(x))
  }

  ghost predicate IsWhole(x: real) {
    x.Floor as real == x
  }

  lemma {:induction false} RoundAtError(x: real, e: int)
    ensures RoundAt(x, e) - Unit(e) / 2.0 <= x <= RoundAt(x, e) + Unit(e) / 2.0
    decreases if e < 0 then -e else e
  {
    if e > 0 {
      RoundAtError(x / 2.0, e - 1);
    } else if e < 0 {
      RoundAtError(2.0 * x, e + 1);
    }
  }

  /** A value half way between two whole numbers of units is rounded to the even one. */
  lemma {:induction false} RoundAtTiesToEven(x: real, e: int)
    requires IsWhole(Scaled(x, e) - 0.5)
    ensures IsEven(Scaled(RoundAt(x, e), e))
    decreases if e < 0 then -e else e
  {
    if e == 0 {
      NearestTieIsEven(x);
    } else if e > 0 {
      RoundAtTiesToEven(x / 2.0, e - 1);
    } else {
      RoundAtTiesToEven(2.0 * x, e + 1);
    }
  }

  lemma HalfIsWhole(n: int)
    requires n % 2 == 0
    ensures IsEven(n as real)
  {
    var m := n / 2;
    assert n as real == 2.0 * m as real;
  }

  lemma NearestTieIsEven(x: real)
    requires IsWhole(x - 0.5)
    ensures IsEven(NearestEven(x) as real)
  {
    var w := (x - 0.5).Floor;
    assert x == w as real + 0.5 && x.Floor == w;
    HalfIsWhole(if w % 2 == 0 then w else w + 1);
  }

  lemma NearestNotBeyond(x: real, k: int)
    ensures x <= k as real ==> NearestEven(x) <= k
    ensures x >= k as real ==> NearestEven(x) >= k
  {
  }

  lemma DoubleWhole(x: real)
    requires IsWhole(x)
    ensures IsWhole(2.0 * x)
  {
    assert (2 * x.Floor) as real == 2.0 * x;
  }

  /** Rounding never crosses a multiple of the unit. */
  lemma {:induction false} RoundAtNotBeyond(x: real, z: real, e: int)
    requires IsWhole(Scaled(z, e))
    ensures x <= z ==> RoundAt(x, e) <= z
    ensures x >= z ==> RoundAt(x, e) >= z
    decreases if e < 0 then -e else e
  {
    if e > 0 {
      RoundAtNotBeyond(x / 2.0, z / 2.0, e - 1);
    } else if e < 0 {
      RoundAtNotBeyond(2.0 * x, 2.0 * z, e + 1);
    } else {
      NearestNotBeyond(x, z.Floor);
    }
  }

  ghost predicate IsEven(x: real) {
    IsWhole(x) && x.Floor % 2 == 0
  }

  lemma NearestAbove(x: real, n: int)
    requires n % 2 == 0 && n as real <= x
    ensures NearestEven(x) > n <==> x > n as real + 0.5
  {
    if x > n as real + 0.5 {
      assert NearestEven(x) as real > n as real;
    } else if x == n as real + 0.5 {
      assert x.Floor == n;
    }
  }

  /** An even multiple z of the unit keeps everything up to half a unit above it, and no more. */
  lemma {:induction false} RoundAtAbove(x: real, z: real, e: int)
    requires IsEven(Scaled(z, e)) && z <= x
    ensures RoundAt(x, e) > z <==> x > z + Unit(e) / 2.0
    decreases if e < 0 then -e else e
  {
    if e > 0 {
      RoundAtAbove(x / 2.0, z / 2.0, e - 1);
    } else if e < 0 {
      RoundAtAbove(2.0 * x, 2.0 * z, e + 1);
    } else {
      NearestAbove(x, z.Floor);
    }
  }

  /** Rounding commutes with adding an even multiple of the unit. */
  lemma {:induction false} RoundAtShift(x: real, z: real, e: int)
    requires IsEven(Scaled(z, e))
    ensures RoundAt(x + z, e) == RoundAt(x, e) + z
    decreases if e < 0 then -e else e
  {
    if e > 0 {
      RoundAtShift(x / 2.0, z / 2.0, e - 1);
      assert (x + z) / 2.0 == x / 2.0 + z / 2.0;
    } else if e < 0 {
      RoundAtShift(2.0 * x, 2.0 * z, e + 1);
      assert 2.0 * (x + z) == 2.0 * x + 2.0 * z;
    } else {
      NearestShift(x, z.Floor);
    }
  }

  lemma NearestShift(x: real, n: int)
    requires n % 2 == 0
    ensures NearestEven(x + n as real) == NearestEven(x) + n
  {
    assert (x + n as real).Floor == x.Floor + n;
  }

  // ---- Round is the rounding the standard asks for ----

  /** A value with exponent e and a significand of at most 53 bits. */
  ghost predicate IsFloat(z: real, e: int) {
    IsWhole(Scaled(z, e)) && -TWO53 <= Scaled(z, e) <= TWO53
  }

  ghost function Distance(a: real, b: real): real {
    if a < b then b - a else a - b
  }

  lemma {:induction false} RoundAtWhole(x: real, e: int)
    ensures Scaled(RoundAt(x, e), e) == NearestEven(Scaled(x, e)) as real
    decreases if e < 0 then -e else e
  {
    if e > 0 {
      RoundAtWhole(x / 2.0, e - 1);
    } else if e < 0 {
      RoundAtWhole(2.0 * x, e + 1);
    }
  }

  /** Round yields a float. */
  lemma RoundIsFloat(x: real)
    requires InRange(x)
    ensures IsFloat(Round(x), Exponent(x))
  {
    RoundAtWhole(x, Exponent(x));
  }

  /** At or above the exponent of x, a float is a multiple of x's unit. */
  lemma {:induction false} HighFloat(z: real, e: int, f: int)
    requires IsWhole(Scaled(z, e)) && f <= e
    ensures IsWhole(Scaled(z, f))
    decreases e - f
  {
    if f < e {
      ScaledStep(z, e - 1);
      DoubleWhole(Scaled(z, e));
      HighFloat(z, e - 1, f);
    }
  }

  /** Below the exponent of x, it does not reach the least 53-bit significand. */
  lemma {:induction false} LowFloat(z: real, e: int, f: int)
    requires Scaled(z, e) <= TWO53 && e < f
    ensures Scaled(z, f) <= TWO52
    decreases f - e
  {
    ScaledStep(z, e);
    if e + 1 < f {
      LowFloat(z, e + 1, f);
    }
  }

  lemma {:induction false} RoundAtNearest(x: real, z: real, e: int)
    requires IsWhole(Scaled(z, e)) || Scaled(z, e) <= TWO52 <= Scaled(x, e)
    ensures Distance(x, RoundAt(x, e)) <= Distance(x, z)
    decreases if e < 0 then -e else e
  {
    if e > 0 {
      RoundAtNearest(x / 2.0, z / 2.0, e - 1);
    } else if e < 0 {
      RoundAtNearest(2.0 * x, 2.0 * z, e + 1);
    } else if IsWhole(z) {
      ClosestInteger(x, z.Floor);
    } else {
      ClosestInteger(x, 0x10_0000_0000_0000);
    }
  }

  lemma ClosestInteger(x: real, k: int)
    ensures Distance(x, NearestEven(x) as real) <= Distance(x, k as real)
  {
    var n := NearestEven(x);
    if k < n { assert k as real <= n as real - 1.0; } else if k > n { assert k as real >= n as real + 1.0; }
  }

  /** No float, of any exponent, is nearer to x than Round(x). */
  lemma RoundIsNearest(x: real, z: real, e: int)
    requires InRange(x) && IsFloat(z, e)
    ensures Distance(x, Round(x)) <= Distance(x, z)
  {
    var f := Exponent(x);
    if f <= e {
      HighFloat(z, e, f);
    } else {
      LowFloat(z, e, f);
    }
    RoundAtNearest(x, z, f);
  }
}
