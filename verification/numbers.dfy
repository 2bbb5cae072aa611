/** Exact arithmetic helpers standing in for JavaScript's Math functions. */
module Numbers {

  /** Math.round: round half up, i.e. floor(x + 0.5) (also for negative x). */
  function Round(x: real): (n: int)
    ensures x - 0.5 < n as real <= x + 0.5
  {
    (x + 0.5).Floor
  }

  /** Math.floor. */
  function Floor(x: real): (n: int)
    ensures n as real <= x < n as real + 1.0
  {
    x.Floor
  }

  function MinReal(a: real, b: real): (r: real)
    ensures r <= a && r <= b && (r == a || r == b)
  {
    if a <= b then a else b
  }

  function MaxReal(a: real, b: real): (r: real)
    ensures r >= a && r >= b && (r == a || r == b)
  {
    if a >= b then a else b
  }

  function AbsReal(x: real): (r: real)
    ensures r >= 0.0 && (r == x || r == -x)
  {
    if x < 0.0 then -x else x
  }

  /** Clamps x into [lo, hi] (a max of a min). */
  function ClampReal(x: real, lo: real, hi: real): (r: real)
    requires lo <= hi
    ensures lo <= r <= hi
    ensures lo <= x <= hi ==> r == x
    ensures x < lo ==> r == lo
    ensures x > hi ==> r == hi
  {
    MaxReal(lo, MinReal(hi, x))
  }

  /** Clamps n into [lo, hi] on integers. */
  function ClampInt(n: int, lo: int, hi: int): (r: int)
    requires lo <= hi
    ensures lo <= r <= hi
    ensures lo <= n <= hi ==> r == n
    ensures n < lo ==> r == lo
    ensures n > hi ==> r == hi
  {
    if n < lo then lo else if n > hi then hi else n
  }

  /** Rounding an integer gives it back. */
  lemma RoundOfInt(n: int)
    ensures Round(n as real) == n
  {
  }

  /** A number within half a unit below or strictly less than half above k rounds to k. */
  lemma RoundNear(x: real, k: int)
    requires k as real - 0.5 <= x < k as real + 0.5
    ensures Round(x) == k
  {
  }

  /** Rounding is monotone. */
  lemma RoundMonotone(x: real, y: real)
    requires x <= y
    ensures Round(x) <= Round(y)
  {
  }
}
