/** The day arithmetic that keeps a robot's Harbor expiry ahead of its lease
    (internal/backend/duration.go, and AddDate/Unix as Harbor applies them).
    Instants and durations are nanoseconds; Harbor's expires_at is whole seconds; days are UTC. */
module Duration {
  import opened Float64

  const SECOND: int := 1_000_000_000
  const DAY: int := 86_400_000_000_000
  const DAY_SECONDS: int := 86_400
  const MAX_DURATION: int := 0x7FFF_FFFF_FFFF_FFFF
  const MIN_DURATION: int := -0x8000_0000_0000_0000
  /** The most days a duration can need. */
  const MAX_DAYS: int := 106_752
  /** The most nanoseconds the binary64 division can lose. */
  const FLOAT_SLACK: int := 1140

  const DAY_REAL: real := 86400000000000.0

  function Ceil(x: real): (n: int)
    ensures n as real - 1.0 < x <= n as real
  {
    if x.Floor as real == x then x.Floor else x.Floor + 1
  }

  lemma LeastInRange(x: real)
    requires x >= 0.5 / DAY_REAL
    ensures InRange(x)
  {
    UnitFive(0);
    UnitFive(-5);
    UnitFive(-10);
    UnitFive(-15);
    UnitFive(-20);
    UnitFive(-25);
    UnitFive(-30);
    UnitFive(-35);
    UnitFive(-40);
    UnitFive(-45);
  }

  /** The quotient as binary64 computes it: both the operand and the result are rounded. */
  function FloatDays(ttl: int): (q: real)
    requires ttl > 0
    ensures InRange(ttl as real) && InRange(Round(ttl as real) / DAY_REAL)
  {
    LeastInRange(ttl as real);
    var t := Round(ttl as real);
    assert t / DAY_REAL >= 0.5 / DAY_REAL;
    LeastInRange(t / DAY_REAL);
    Round(t / DAY_REAL)
  }

  /** ttlToDays: round up to whole days, never less than one. */
  function TtlToDays(ttl: int): (d: int)
    ensures d >= 1
  {
    if ttl <= 0 then 1
    else
      var d := Ceil(FloatDays(ttl));
      if d < 1 then 1 else d
  }

  /** time.Time.Sub saturates at the int64 range. */
  function Sub(later: int, earlier: int): int {
    var d := later - earlier;
    if d > MAX_DURATION then MAX_DURATION else if d < MIN_DURATION then MIN_DURATION else d
  }

  function DurationForExpiry(created: int, want: int): int {
    TtlToDays(Sub(want, created))
  }

  /** Harbor's expires_at for a robot created at the given instant: AddDate(0, 0, days).Unix(). */
  function ExpiresAt(created: int, days: int): int {
    (created + days * DAY) / SECOND
  }

  /** The exact ceiling the documentation asks for. */
  function CeilDays(ttl: int): (d: int)
    requires ttl > 0
    ensures (d - 1) * DAY < ttl <= d * DAY
  {
    (ttl + DAY - 1) / DAY
  }

  /** A TTL or a remaining time that is not positive still gets one day, and more time never gets fewer
      days than that. */
  lemma NeverLessThanADay(ttl: int, created: int, want: int)
    ensures ttl <= 0 ==> TtlToDays(ttl) == 1
    ensures want <= created ==> DurationForExpiry(created, want) == 1
    ensures DurationForExpiry(created, want) >= 1
  {
  }

  // ---- how far binary64 is from the exact ceiling ----

  lemma DurationExponent(ttl: int)
    requires 0 < ttl <= MAX_DURATION && InRange(ttl as real)
    ensures Exponent(ttl as real) <= 10
    ensures ttl as real <= TWO53 ==> Exponent(ttl as real) <= 1
  {
    var x := ttl as real;
    var e := Exponent(x);
    ScaledFive(x, 0);
    ScaledFive(x, 5);
    ScaledStep(x, 10);
    if e >= 11 {
      ScaledDecreasing(x, 11, e);
    }
    ScaledStep(x, 0);
    ScaledStep(x, 1);
    if e >= 2 {
      ScaledDecreasing(x, 2, e);
    }
  }

  /** A whole number of days is a multiple of 2^16 nanoseconds, hence exact in binary64. */
  lemma DaysAreExact(k: int, e: int)
    requires e <= 16
    ensures IsWhole(Scaled((k * DAY) as real, e))
    ensures e <= 15 ==> IsEven(Scaled((k * DAY) as real, e))
  {
    var z := (k * DAY) as real;
    ScaledFive(z, 0);
    ScaledFive(z, 5);
    ScaledFive(z, 10);
    ScaledStep(z, 15);
    assert Scaled(z, 16) == (k * 1318359375) as real;
    HighFloat(z, 16, e);
    if e <= 15 {
      HighFloat(z, 16, e + 1);
      ScaledStep(z, e);
      EvenDouble(Scaled(z, e + 1));
    }
  }

  lemma EvenDouble(x: real)
    requires IsWhole(x)
    ensures IsEven(2.0 * x)
  {
    assert (2 * x.Floor) as real == 2.0 * x;
  }

  lemma IntegersAreExact(k: int, e: int)
    requires e <= 0
    ensures IsWhole(Scaled(k as real, e))
    ensures e < 0 ==> IsEven(Scaled(k as real, e))
  {
    HighFloat(k as real, 0, e);
    if e < 0 {
      HighFloat(k as real, 0, e + 1);
      ScaledStep(k as real, e);
      EvenDouble(Scaled(k as real, e + 1));
    }
  }

  lemma QuotientExponent(q: real)
    requires InRange(q) && q < 131072.0
    ensures Exponent(q) <= -36
    ensures q < 128.0 ==> Exponent(q) <= -46
  {
    var e := Exponent(q);
    ScaledFive(q, -5);
    ScaledFive(q, -10);
    ScaledFive(q, -15);
    ScaledFive(q, -20);
    ScaledFive(q, -25);
    ScaledFive(q, -30);
    ScaledFive(q, -35);
    if e >= -35 {
      ScaledDecreasing(q, -35, e);
    }
    ScaledFive(q, -40);
    ScaledFive(q, -45);
    if e >= -45 {
      ScaledDecreasing(q, -45, e);
    }
  }

  /** Rounding the operand moves it by at most 512 ns and never past a whole number of days. */
  lemma OperandRounding(ttl: int, k: int)
    requires 0 < ttl <= MAX_DURATION && InRange(ttl as real)
    ensures ttl as real - 512.0 <= Round(ttl as real) <= ttl as real + 512.0
    ensures ttl <= k * DAY ==> Round(ttl as real) <= (k * DAY) as real
    ensures ttl >= k * DAY ==> Round(ttl as real) >= (k * DAY) as real
  {
    var x := ttl as real;
    DurationExponent(ttl);
    RoundAtError(x, Exponent(x));
    UnitMonotone(Exponent(x), 10);
    UnitFive(10);
    UnitFive(5);
    DaysAreExact(k, Exponent(x));
    RoundAtNotBeyond(x, (k * DAY) as real, Exponent(x));
  }

  lemma QuotientRounding(q: real, k: int)
    requires InRange(q) && q < 131072.0
    ensures q - Round(q) <= 1.0 / 137438953472.0
    ensures q < 128.0 ==> q - Round(q) <= 1.0 / 140737488355328.0
    ensures q <= k as real ==> Round(q) <= k as real
    ensures q >= k as real ==> Round(q) >= k as real
  {
    var e := Exponent(q);
    QuotientExponent(q);
    RoundAtError(q, e);
    SmallUnits(e);
    IntegersAreExact(k, e);
    RoundAtNotBeyond(q, k as real, e);
  }

  lemma SmallUnits(e: int)
    ensures e <= -36 ==> Unit(e) <= 1.0 / 68719476736.0
    ensures e <= -46 ==> Unit(e) <= 1.0 / 70368744177664.0
  {
    UnitFive(0);
    UnitFive(-5);
    UnitFive(-10);
    UnitFive(-15);
    UnitFive(-20);
    UnitFive(-25);
    UnitFive(-30);
    UnitStep(-36);
    UnitFive(-35);
    UnitFive(-40);
    UnitStep(-46);
    if e <= -36 { UnitMonotone(e, -36); }
    if e <= -46 { UnitMonotone(e, -46); }
  }

  /** The engine never asks for more days than the exact ceiling, and falls short of the duration by
      at most 1140 ns. */
  lemma TtlToDaysNearCeiling(ttl: int)
    requires 0 < ttl <= MAX_DURATION
    ensures TtlToDays(ttl) <= CeilDays(ttl) <= MAX_DAYS
    ensures TtlToDays(ttl) * DAY >= ttl - FLOAT_SLACK
  {
    var f := FloatDays(ttl);
    var k := CeilDays(ttl);
    var t := Round(ttl as real);
    var q := t / DAY_REAL;
    OperandRounding(ttl, k);
    assert q * DAY_REAL == t;
    assert q <= k as real;
    QuotientRounding(q, k);
    assert f <= k as real;
    var d := Ceil(f);
    assert d as real * DAY_REAL >= f * DAY_REAL >= t - DAY_REAL / 137438953472.0;
    assert (d * DAY) as real >= ttl as real - 1141.0;
  }

  lemma ExactOnWholeDays(ttl: int)
    requires 0 < ttl <= MAX_DURATION && ttl % DAY == 0
    ensures TtlToDays(ttl) == CeilDays(ttl)
  {
    var k := CeilDays(ttl);
    var f := FloatDays(ttl);
    OperandRounding(ttl, k);
    WholeDayQuotient(Round(ttl as real), k);
    QuotientRounding(Round(ttl as real) / DAY_REAL, k);
    assert f == k as real;
  }

  lemma WholeDayQuotient(t: real, k: int)
    requires t == (k * DAY) as real && k <= MAX_DAYS
    ensures t / DAY_REAL == k as real < 131072.0
  {
    assert t == k as real * DAY_REAL;
  }

  /** Where the binary64 result can differ from the exact ceiling at all. */
  lemma ExactAwayFromWholeDays(ttl: int)
    requires 0 < ttl <= MAX_DURATION
    requires ttl % DAY == 0 || ttl % DAY > FLOAT_SLACK
    ensures TtlToDays(ttl) == CeilDays(ttl)
  {
    if ttl % DAY == 0 {
      ExactOnWholeDays(ttl);
    } else {
      TtlToDaysNearCeiling(ttl);
    }
  }

  /** Every whole-second duration, however long, gets the exact ceiling. */
  lemma ExactOnWholeSeconds(ttl: int)
    requires 0 < ttl <= MAX_DURATION && ttl % SECOND == 0
    ensures TtlToDays(ttl) == CeilDays(ttl)
  {
    assert ttl % DAY == 0 || ttl % DAY >= SECOND;
    ExactAwayFromWholeDays(ttl);
  }

  /** Every duration up to 2^53 ns (104 days and 6 hours) gets the exact ceiling. */
  lemma ExactUpTo104Days(ttl: int)
    requires 0 < ttl <= 0x20_0000_0000_0000
    ensures TtlToDays(ttl) == CeilDays(ttl)
  {
    if ttl % DAY == 0 {
      ExactAwayFromWholeDays(ttl);
    } else {
      TtlToDaysNearCeiling(ttl);
      var j := ttl / DAY;
      var x := ttl as real;
      assert InRange(x) by { assert FloatDays(ttl) == FloatDays(ttl); }
      WholeNanoseconds(ttl);
      var q := x / DAY_REAL;
      assert q * DAY_REAL == x;
      assert x >= j as real * DAY_REAL + 1.0;
      QuotientRounding(q, j);
      var f := FloatDays(ttl);
      assert f * DAY_REAL > j as real * DAY_REAL;
    }
  }

  lemma WholeNanoseconds(ttl: int)
    requires 0 < ttl <= 0x20_0000_0000_0000 && InRange(ttl as real)
    ensures Round(ttl as real) == ttl as real
  {
    var x := ttl as real;
    var e := Exponent(x);
    DurationExponent(ttl);
    ScaledStep(x, 0);
    if e == 1 {
      assert ttl == 0x20_0000_0000_0000;
      assert IsWhole(Scaled(x, 1)) by { assert Scaled(x, 1) == TWO52; assert (0x10_0000_0000_0000) as real == TWO52; }
    } else {
      IntegersAreExact(ttl, e);
    }
    RoundAtNotBeyond(x, x, e);
  }

  /** The operand is its whole days plus its last part, rounded as the operand is. */
  lemma OperandSplits(ttl: int)
    requires 0 < ttl <= MAX_DURATION && InRange(ttl as real)
    ensures var j := ttl / DAY;
            && Round(ttl as real) == RoundAt((ttl % DAY) as real, Exponent(ttl as real)) + (j * DAY) as real
            && (j * DAY) as real <= Round(ttl as real) <= ((j + 1) * DAY) as real
  {
    var x, j := ttl as real, ttl / DAY;
    var e := Exponent(x);
    DurationExponent(ttl);
    DaysAreExact(j, e);
    RoundAtShift((ttl % DAY) as real, (j * DAY) as real, e);
    assert (ttl % DAY) as real + (j * DAY) as real == x;
    OperandRounding(ttl, j);
    OperandRounding(ttl, j + 1);
  }

  /** The quotient rounds to more than j days exactly when it is more than half its spacing above j. */
  lemma QuotientExceeds(q: real, j: int)
    requires InRange(q) && 0 <= j <= MAX_DAYS && j as real <= q <= (j + 1) as real && q < 131072.0
    ensures Round(q) > j as real <==> q - j as real > Unit(Exponent(q)) / 2.0
  {
    QuotientExponent(q);
    IntegersAreExact(j, Exponent(q));
    RoundAtAbove(q, j as real, Exponent(q));
  }

  /** The requested days cover the duration exactly when the part beyond the last whole day, rounded
      as the operand is, lies beyond half the spacing of the quotient. */
  lemma CoversExactly(ttl: int)
    requires 0 < ttl <= MAX_DURATION
    ensures InRange(ttl as real) && InRange(Round(ttl as real) / DAY_REAL)
    ensures var kept := RoundAt((ttl % DAY) as real, Exponent(ttl as real));
            var spacing := Unit(Exponent(Round(ttl as real) / DAY_REAL));
            TtlToDays(ttl) * DAY >= ttl <==> ttl % DAY == 0 || kept > DAY_REAL * spacing / 2.0
  {
    var f := FloatDays(ttl);
    if ttl % DAY == 0 {
      ExactAwayFromWholeDays(ttl);
    } else {
      var j := ttl / DAY;
      var q := Round(ttl as real) / DAY_REAL;
      OperandSplits(ttl);
      QuotientOfSplit(Round(ttl as real), RoundAt((ttl % DAY) as real, Exponent(ttl as real)), j);
      QuotientExceeds(q, j);
      CoveredBeyond(ttl, f);
      Halves(RoundAt((ttl % DAY) as real, Exponent(ttl as real)), q - j as real, Unit(Exponent(q)));
    }
  }

  lemma QuotientOfSplit(t: real, kept: real, j: int)
    requires t == kept + (j * DAY) as real && (j * DAY) as real <= t <= ((j + 1) * DAY) as real
    requires 0 <= j <= MAX_DAYS
    ensures kept == (t / DAY_REAL - j as real) * DAY_REAL
    ensures j as real <= t / DAY_REAL <= (j + 1) as real && t / DAY_REAL < 131072.0
  {
    var q := t / DAY_REAL;
    assert q * DAY_REAL == t;
    assert (j * DAY) as real == j as real * DAY_REAL;
    assert ((j + 1) * DAY) as real == (j + 1) as real * DAY_REAL;
  }

  /** A partial last day is covered exactly when the quotient exceeds the whole days. */
  lemma CoveredBeyond(ttl: int, f: real)
    requires 0 < ttl <= MAX_DURATION && ttl % DAY != 0 && f == FloatDays(ttl)
    ensures TtlToDays(ttl) * DAY >= ttl <==> f > (ttl / DAY) as real
  {
    TtlToDaysNearCeiling(ttl);
    var j := ttl / DAY;
    assert f > j as real <==> Ceil(f) > j;
    assert TtlToDays(ttl) == if Ceil(f) < 1 then 1 else Ceil(f);
  }

  lemma Halves(kept: real, above: real, spacing: real)
    requires kept == above * DAY_REAL
    ensures above > spacing / 2.0 <==> kept > DAY_REAL * spacing / 2.0
  {
    assert kept - DAY_REAL * spacing / 2.0 == (above - spacing / 2.0) * DAY_REAL;
  }

  /** The documented "at or after" is not met for all inputs: 105 days and one nanosecond are sent to
      Harbor as 105 days. */
  lemma OneNanosecondIsLost()
    ensures TtlToDays(105 * DAY + 1) == 105
    ensures TtlToDays(105 * DAY + 1) * DAY < 105 * DAY + 1
  {
    var ttl := 105 * DAY + 1;
    var f := FloatDays(ttl);
    var x := ttl as real;
    DurationExponent(ttl);
    CoversExactly(ttl);
    TtlToDaysNearCeiling(ttl);
    var e := Exponent(x);
    ScaledStep(x, 0);
    if e <= 0 {
      ScaledDecreasing(x, e, 0);
    }
    ScaledStep(x, 1);
    if e >= 2 {
      ScaledDecreasing(x, 2, e);
    }
    assert e == 1;
    assert RoundAt(1.0, 1) == 0.0;
  }

  /** Both sides of durationForExpiry: the robot expires less than a day after the wanted instant and
      at most 1140 ns before it; never before it when the distance is whole seconds or at most 104 days. */
  lemma DurationForExpiryIsTwoSided(created: int, want: int)
    requires created < want <= created + MAX_DURATION
    ensures var d := DurationForExpiry(created, want);
            want - FLOAT_SLACK <= created + d * DAY < want + DAY
    ensures (want - created) % SECOND == 0 || want - created <= 0x20_0000_0000_0000 ==>
              created + DurationForExpiry(created, want) * DAY >= want
  {
    var ttl := want - created;
    TtlToDaysNearCeiling(ttl);
    if ttl % SECOND == 0 { ExactOnWholeSeconds(ttl); }
    if ttl <= 0x20_0000_0000_0000 { ExactUpTo104Days(ttl); }
  }

  /** After Harbor drops the sub-second part, an extension misses the wanted instant by less than one
      second when the ceiling is exact, and by less than one second and 1141 ns always. */
  lemma ExtensionMissesByUnderASecond(created: int, want: int)
    requires created < want <= created + MAX_DURATION
    ensures var expires := ExpiresAt(created, DurationForExpiry(created, want)) * SECOND;
            want - SECOND - FLOAT_SLACK < expires < want + DAY
    ensures (want - created) % SECOND == 0 || want - created <= 0x20_0000_0000_0000 ==>
              want - SECOND < ExpiresAt(created, DurationForExpiry(created, want)) * SECOND
  {
    DurationForExpiryIsTwoSided(created, want);
  }

  /** Whole days shift the expiry by whole seconds: every expiry a robot can have agrees with its
      creation time modulo a day. */
  lemma ExpirySplits(created: int, days: int)
    ensures ExpiresAt(created, days) == created / SECOND + days * DAY_SECONDS
  {
    assert created + days * DAY == created + (days * DAY_SECONDS) * SECOND;
  }

  /** Asking for a later instant never yields fewer days than an expiry already granted: if the expiry
      of k days is at or before the wanted instant (to the second), at least k days are requested.
      This holds for the binary64 ceiling and for saturated distances too. */
  lemma NeverFewerDays(created: int, want: int, k: int)
    requires 1 <= k <= MAX_DAYS
    requires ExpiresAt(created, k) * SECOND <= want
    ensures k <= DurationForExpiry(created, want) <= MAX_DAYS
  {
    ExpirySplits(created, k);
    var ttl := Sub(want, created);
    assert want - created > k * DAY - SECOND;
    assert ttl > (k - 1) * DAY + FLOAT_SLACK;
    TtlToDaysNearCeiling(ttl);
  }
}
