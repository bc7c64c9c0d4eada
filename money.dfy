/**
 * Money arithmetic of the re-rating engine. Amounts are exact reals; Python's
 * round(x, 2) becomes Round2, which keeps two decimals and sends ties upward.
 */
module Money {

  /** The absolute value, as Python's abs on a float. */
  function Abs(x: real): real {
    if x < 0.0 then -x else x
  }

  /** Python's max of two numbers. */
  function Max(a: real, b: real): (m: real)
    ensures m >= a && m >= b && (m == a || m == b)
  {
    if b > a then b else a
  }

  /** A whole number of cents: exactly two decimals or fewer. */
  predicate IsCent(x: real) {
    (x * 100.0).Floor as real == x * 100.0
  }

  /** round(x, 2): the nearest multiple of 0.01, ties resolved upward. */
  function Round2(x: real): (r: real)
    ensures IsCent(r)
    ensures -0.005 < r - x <= 0.005
  {
    (x * 100.0 + 0.5).Floor as real / 100.0
  }

  /** Rounding an amount that is already in cents changes nothing. */
  lemma RoundCent(c: real)
    requires IsCent(c)
    ensures Round2(c) == c
  {
    var n := (c * 100.0).Floor;
    assert (c * 100.0 + 0.5).Floor == n;
  }

  /** Adding whole cents commutes with rounding. */
  lemma RoundShift(x: real, c: real)
    requires IsCent(c)
    ensures Round2(x + c) == Round2(x) + c
  {
    var k := (c * 100.0).Floor;
    var n := (x * 100.0 + 0.5).Floor;
    assert ((x + c) * 100.0 + 0.5) == (x * 100.0 + 0.5) + k as real;
    assert ((x + c) * 100.0 + 0.5).Floor == n + k;
  }

  /** Sums of cents are cents. */
  lemma CentAdd(a: real, b: real)
    requires IsCent(a) && IsCent(b)
    ensures IsCent(a + b)
  {
    var m := (a * 100.0).Floor;
    var n := (b * 100.0).Floor;
    assert (a + b) * 100.0 == (m + n) as real;
  }

  lemma RoundZero()
    ensures Round2(0.0) == 0.0
  {
    assert (0.5).Floor == 0;
  }
}
