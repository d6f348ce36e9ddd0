/** Small definitions shared by every component model. */
module Basics {

  datatype Option<+T> = None | Some(value: T)

  datatype Result<+T, +E> = Ok(value: T) | Err(error: E)

  function Pow2(k: nat): (p: nat)
    ensures p >= 1
  {
    if k == 0 then 1 else 2 * Pow2(k - 1)
  }

  lemma {:induction false} Pow2Monotone(j: nat, k: nat)
    requires j <= k
    ensures Pow2(j) <= Pow2(k)
    decreases k - j
  {
    if j < k {
      Pow2Monotone(j, k - 1);
    }
  }

  /** When a doubling timer that starts at half a second has run `k` times, this many seconds have passed. */
  function Backoff(k: nat): (seconds: real)
    ensures seconds >= 0.0
  {
    0.5 * (Pow2(k) as real - 1.0)
  }

  /** Sixty-three and a half seconds pass before the seventh doubling, so 32 seconds allow six resends. */
  lemma BackoffWithin32(k: nat)
    requires Backoff(k) <= 32.0
    ensures k <= 6
  {
    assert Pow2(7) == 128;
    if k >= 7 {
      Pow2Monotone(7, k);
    }
  }

  /** At most seven sends, the k-th resend at least 0.5(2^k - 1) seconds after the first send. */
  predicate Spaced(sends: seq<real>) {
    |sends| <= 7 && forall k :: 0 <= k < |sends| ==> sends[k] >= sends[0] + Backoff(k)
  }

  // ----- Division -----

  lemma {:induction false} TimesAtLeast(m: nat, d: int)
    ensures d >= 1 ==> m * d >= m
    decreases d
  {
    if d > 1 {
      TimesAtLeast(m, d - 1);
      assert m * d == m * (d - 1) + m;
    }
  }

  lemma NoMultipleBetween(m: nat, d: int)
    requires 0 - m < m * d < m
    ensures d == 0
  {
    TimesAtLeast(m, d);
    TimesAtLeast(m, -d);
  }

  lemma DivisionIs(x: int, m: nat, q: int, r: int)
    requires m > 0 && x == m * q + r && 0 <= r < m
    ensures x / m == q && x % m == r
  {
    var d := q - x / m;
    assert m * d == m * q - m * (x / m);
    assert x == m * (x / m) + x % m;
    NoMultipleBetween(m, d);
  }
}
