/** Exact unit conversions. Amounts of AR and of Turbo Credits are BigNumbers, that is decimals,
  * modelled as reals; winston and winc are whole numbers, 10^12 to the unit. */
module Units {

  const UNIT := 1000000000000.0    // 10^12
  const PLACES := 100000000000000000000.0  // 10^20: BigNumber divides to 20 decimal places

  function Ceil(x: real): int { -((-x).Floor) }

  /** BigNumber.dividedBy for non-negative operands: 20 decimal places, half up. */
  function DividedBy(n: real, d: real): real
    requires d > 0.0
  {
    (n / d * PLACES + 0.5).Floor as real / PLACES
  }

  predicate Whole(x: real) { x == x.Floor as real }

  function WincToCredits(winc: nat): real { DividedBy(winc as real, UNIT) }

  /** topUpTurboCredits: credits.multipliedBy(1e12).integerValue(ROUND_CEIL). */
  function CreditsToWinc(credits: real): int { Ceil(credits * UNIT) }

  /** arweave.ar.winstonToAr and arToWinston shift the decimal point. */
  function WinstonToAr(winston: nat): real { winston as real / UNIT }
  function ArToWinston(ar: real): real { ar * UNIT }

  /** Twenty places are enough: the balance read back from winc is exact. */
  lemma WincIsExact(winc: nat)
    ensures WincToCredits(winc) == winc as real / UNIT
    ensures CreditsToWinc(WincToCredits(winc)) == winc
  {
    var n := winc as real;
    assert n / UNIT * PLACES == n * 100000000.0;
    assert n * 100000000.0 == (winc * 100000000) as real;
    HalfUpOfWhole(winc * 100000000);
    assert n * 100000000.0 / PLACES == n / UNIT;
    assert n / UNIT * UNIT == n;
  }

  /** 10^12 winston to the AR, and 10^12 winc to the credit. */
  lemma UnitsAre(winston: nat)
    ensures WinstonToAr(1000000000000) == 1.0 && ArToWinston(1.0) == 1000000000000.0
    ensures CreditsToWinc(1.0) == 1000000000000
    ensures ArToWinston(WinstonToAr(winston)) == winston as real
  {
    FloorOfInt(-1000000000000);
  }

  /** Division rounds to the nearest multiple of 10^-20, and up where two are as near. */
  lemma DividedByIsNearest(n: real, d: real)
    requires d > 0.0
    ensures var places, q := DividedBy(n, d) * 100000000000000000000.0, n / d * 100000000000000000000.0;
      Whole(places) && q - 0.5 < places <= q + 0.5
  {
    var k := (n / d * PLACES + 0.5).Floor;
    assert DividedBy(n, d) * PLACES == k as real;
    FloorOfInt(k);
  }

  lemma HalfUpOfWhole(n: int)
    ensures (n as real + 0.5).Floor == n
  {
  }

  lemma CeilShift(x: real, n: int)
    ensures Ceil(x - n as real) == Ceil(x) - n
  {
    assert -(x - n as real) == -x + n as real;
    assert (-x + n as real).Floor == (-x).Floor + n;
  }

  /** The winc that a refill of max - balance asks for brings the balance to max, rounded up to a
    * whole winc: it is never short and never a whole winc too much. */
  lemma TurboRefillReachesMax(max: real, winc: nat)
    ensures var asked := CreditsToWinc(max - WincToCredits(winc));
      && winc + asked == Ceil(max * UNIT)
      && max * UNIT <= (winc + asked) as real < max * UNIT + 1.0
  {
    WincIsExact(winc);
    assert (max - winc as real / UNIT) * UNIT == max * UNIT - winc as real;
    CeilShift(max * UNIT, winc);
  }

  /** An AR refill of max - balance converts back to a whole number of winston, and then to exactly
    * the shortfall, if and only if max has at most 12 decimals. */
  lemma ArRefillIsWhole(max: real, winston: nat)
    ensures var asked := ArToWinston(max - WinstonToAr(winston));
      && asked == max * UNIT - winston as real
      && (Whole(asked) <==> Whole(max * UNIT))
  {
    var x := max * UNIT;
    assert (max - winston as real / UNIT) * UNIT == x - winston as real;
    assert (x - winston as real).Floor == x.Floor - winston;
  }

  /** The same request, against max rounded up to a winston. */
  lemma ArRefillRoundsUp(max: real, winston: nat)
    ensures var asked, whole := ArToWinston(max - WinstonToAr(winston)), Ceil(max * UNIT) - winston;
      Ceil(asked) == whole && (asked == whole as real <==> Whole(max * UNIT))
  {
    ArRefillIsWhole(max, winston);
    CeilShift(max * UNIT, winston);
    CeilOfWhole(max * UNIT);
    assert (Ceil(max * UNIT) - winston) as real == Ceil(max * UNIT) as real - winston as real;
  }

  lemma CeilOfWhole(x: real)
    ensures x == Ceil(x) as real <==> Whole(x)
  {
    if Whole(x) {
      var n := x.Floor;
      assert -x == (-n) as real;
      FloorOfInt(-n);
      assert Ceil(x) == n;
    } else {
      FloorOfInt(Ceil(x));
    }
  }

  lemma FloorOfInt(n: int)
    ensures (n as real).Floor == n
  {
  }

  /** Comparing a whole amount with a decimal threshold is comparing it with the ceiling. */
  lemma BelowIsBelowCeil(n: int, x: real)
    ensures (n as real) < x <==> n < Ceil(x)
  {
  }
}
