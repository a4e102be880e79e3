/**
 * The part of the `money2` value types that the billing records use: a
 * currency tag, a fixed-point decimal (a mantissa and a number of fractional
 * digits, the way `rust_decimal` stores it) and `Money`, an amount in one
 * currency. `Rescale` is the rounding step that fixes the number of
 * fractional digits of a result.
 */
module Decimals {

  /** A currency, identified by its ISO 4217 code. */
  datatype Currency = Currency(code: string)

  function Pow10(n: nat): (r: nat)
    ensures r >= 1
  {
    if n == 0 then 1 else 10 * Pow10(n - 1)
  }

  lemma {:induction false} Pow10Add(a: nat, b: nat)
    ensures Pow10(a + b) == Pow10(a) * Pow10(b)
  {
    if b > 0 {
      Pow10Add(a, b - 1);
      assert Pow10(a + b) == 10 * Pow10(a + b - 1);
    }
  }

  /** The decimal `mantissa / 10^scale`; `scale` is the number of fractional digits it carries. */
  datatype Decimal = Decimal(mantissa: int, scale: nat) {
    function Value(): (v: real) {
      mantissa as real / Pow10(scale) as real
    }
  }

  /** An amount of money in one currency. */
  datatype Money = Money(amount: Decimal, currency: Currency)

  /** The nearest integer to `y`, halves rounded away from zero. */
  function RoundHalfAway(y: real): (m: int)
    ensures -1.0 <= 2.0 * (m as real - y) <= 1.0
  {
    var a := if y >= 0.0 then y else -y;
    var f := (a + 0.5).Floor;
    assert f as real <= a + 0.5 < f as real + 1.0;
    if y >= 0.0 then f else -f
  }

  lemma FloorIsUnique(x: real, k: int)
    requires k as real <= x < k as real + 1.0
    ensures x.Floor == k
  {
  }

  /** A whole number is its own rounding. */
  lemma RoundHalfAwayOfWhole(k: int)
    ensures RoundHalfAway(k as real) == k
  {
    if k >= 0 {
      FloorIsUnique(k as real + 0.5, k);
    } else {
      FloorIsUnique(-(k as real) + 0.5, -k);
    }
  }

  /**
   * `x` rounded to a decimal with exactly `scale` fractional digits: the
   * mantissa is the whole number nearest to `x * 10^scale`, so the result is
   * within half a unit of its last digit from `x`.
   */
  function Rescale(x: real, scale: nat): (r: Decimal)
    ensures r.scale == scale
    ensures -1.0 <= 2.0 * (r.mantissa as real - x * (Pow10(scale) as real)) <= 1.0
  {
    Decimal(RoundHalfAway(x * (Pow10(scale) as real)), scale)
  }

  lemma ScaleUp(m: int, pa: nat, pk: nat)
    requires pa >= 1
    ensures (m as real / pa as real) * ((pa * pk) as real) == (m * pk) as real
  {
    var a := m as real / pa as real;
    assert a * pa as real == m as real;
    assert (pa * pk) as real == pa as real * pk as real;
    assert a * (pa as real * pk as real) == (a * pa as real) * pk as real;
  }

  lemma SameQuotient(m: int, pa: nat, pk: nat)
    requires pa >= 1 && pk >= 1
    ensures (m * pk) as real / (pa * pk) as real == m as real / pa as real
  {
    var q := m as real / pa as real;
    assert q * pa as real == m as real;
    assert (pa * pk) as real == pa as real * pk as real;
    assert (m * pk) as real == q * (pa as real * pk as real);
  }

  /**
   * Rescaling a decimal that has at most `scale` fractional digits only pads
   * its mantissa with zeros: the value is unchanged.
   */
  lemma RescaleKeepsShorterDecimal(d: Decimal, scale: nat)
    requires d.scale <= scale
    ensures Rescale(d.Value(), scale) == Decimal(d.mantissa * Pow10(scale - d.scale), scale)
    ensures Rescale(d.Value(), scale).Value() == d.Value()
  {
    var k: nat := scale - d.scale;
    var pa, pk := Pow10(d.scale), Pow10(k);
    Pow10Add(d.scale, k);
    assert Pow10(scale) == pa * pk;
    var whole := d.mantissa * pk;
    ScaleUp(d.mantissa, pa, pk);
    assert d.Value() * (Pow10(scale) as real) == whole as real;
    RoundHalfAwayOfWhole(whole);
    assert Rescale(d.Value(), scale) == Decimal(whole, scale);
    SameQuotient(d.mantissa, pa, pk);
  }
}
