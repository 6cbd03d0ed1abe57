/** The numeric helpers the source takes from Python: `round(x, 3)` and clamping into [0, 1]. */
module Numeric {

  /** `round(x, 3)`: the nearest multiple of 1/1000 (ties rounded up). */
  function Round3(x: real): real
  {
    ((x * 1000.0 + 0.5).Floor as real) / 1000.0
  }

  /** Round3 lands within half a thousandth of its argument. */
  lemma Round3Near(x: real)
    ensures x - 0.0005 < Round3(x) <= x + 0.0005
  {
    var n := (x * 1000.0 + 0.5).Floor;
    assert n as real <= x * 1000.0 + 0.5 < n as real + 1.0;
  }

  /** Rounding a rounded value changes nothing. */
  lemma Round3Idempotent(x: real)
    ensures Round3(Round3(x)) == Round3(x)
  {
    var n := (x * 1000.0 + 0.5).Floor;
    assert Round3(x) * 1000.0 + 0.5 == n as real + 0.5;
    assert (n as real + 0.5).Floor == n;
  }

  /** A whole number of thousandths is left as it is; in particular 0.0, 0.5 and 1.0. */
  lemma Round3Exact(n: int)
    ensures Round3(n as real / 1000.0) == n as real / 1000.0
  {
    assert (n as real / 1000.0) * 1000.0 + 0.5 == n as real + 0.5;
    assert (n as real + 0.5).Floor == n;
  }

  /** Rounding keeps a value of [0, 1] inside [0, 1]. */
  lemma Round3Unit(x: real)
    requires 0.0 <= x <= 1.0
    ensures 0.0 <= Round3(x) <= 1.0
  {
    var n := (x * 1000.0 + 0.5).Floor;
    assert 0 <= n <= 1000;
  }

  /** Rounding is monotone. */
  lemma Round3Monotone(x: real, y: real)
    requires x <= y
    ensures Round3(x) <= Round3(y)
  {
    assert (x * 1000.0 + 0.5).Floor <= (y * 1000.0 + 0.5).Floor;
  }

  /** `max(lo, min(hi, x))`. */
  function Clamp(x: real, lo: real, hi: real): (r: real)
    requires lo <= hi
    ensures lo <= r <= hi
    ensures lo <= x <= hi ==> r == x
  {
    if x < lo then lo else if x > hi then hi else x
  }
}
