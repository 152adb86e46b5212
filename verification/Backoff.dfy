/** Capped exponential backoff with jitter. */
module Backoff {

  const BASE_MS: nat := 1000
  const MAX_MS: nat := 60000

  function Pow2(n: nat): (p: nat)
    ensures 1 <= p
  {
    if n == 0 then 1 else 2 * Pow2(n - 1)
  }

  /** The delay before jitter: what the k-th failure waits for at least. */
  function BaseDelay(attempt: nat): nat {
    var exp := BASE_MS * Pow2(if attempt == 0 then 0 else attempt - 1);
    if exp < MAX_MS then exp else MAX_MS
  }

  /** `u` is the random draw, which lies in [0, 1). */
  function BackoffMs(attempt: nat, u: real): int {
    var exp := BaseDelay(attempt) as real;
    Rounded(exp, Share(exp, u))
  }

  function Share(exp: real, u: real): real { u * exp }

  function Rounded(exp: real, jitter: real): int {
    (exp + jitter * 0.2 + 0.5).Floor
  }

  predicate IsDraw(u: real) { 0.0 <= u < 1.0 }

  /** A drawn delay is the base delay plus a fifth of it times the draw, rounded to the
      nearest millisecond and halves up; so it is at least the base delay and at most 1.2
      times it. */
  lemma BackoffWithinBounds(attempt: nat, u: real)
    requires IsDraw(u)
    ensures var base := BaseDelay(attempt) as real;
            base + u * base * 0.2 - 0.5 < BackoffMs(attempt, u) as real <= base + u * base * 0.2 + 0.5
    ensures BaseDelay(attempt) <= BackoffMs(attempt, u)
    ensures 5 * BackoffMs(attempt, u) <= 6 * BaseDelay(attempt)
  {
    BaseDelayIsWhole(attempt);
    var base := BaseDelay(attempt);
    ScaledDown(base as real, u);
    RoundedWithinBounds(base, Share(base as real, u));
  }

  lemma RoundedWithinBounds(base: nat, jitter: real)
    requires base % 5 == 0 && 0.0 <= jitter <= base as real
    ensures base <= Rounded(base as real, jitter)
    ensures 5 * Rounded(base as real, jitter) <= 6 * base
  {
    var fifth := base / 5;
    assert base == 5 * fifth;
    assert jitter * 0.2 <= fifth as real;
    assert base as real + jitter * 0.2 + 0.5 < (6 * fifth + 1) as real;
  }

  lemma ScaledDown(exp: real, u: real)
    requires IsDraw(u) && 0.0 <= exp
    ensures 0.0 <= Share(exp, u) <= exp
  {
    ProductNotNegative(u, exp);
    ProductNotNegative(1.0 - u, exp);
    assert (1.0 - u) * exp == exp - u * exp;
  }

  lemma ProductNotNegative(x: real, y: real)
    requires 0.0 <= x && 0.0 <= y
    ensures 0.0 <= x * y
  {}

  lemma BaseDelayIsWhole(attempt: nat)
    ensures BaseDelay(attempt) % 5 == 0
  {
    var p := Pow2(if attempt == 0 then 0 else attempt - 1);
    assert BASE_MS * p == 5 * (200 * p);
  }

  /** The sum of the delays before jitter after failures 1 to n. */
  function TotalBase(n: nat): nat {
    if n == 0 then 0 else TotalBase(n - 1) + BaseDelay(n)
  }

  /** Six doublings reach 63 s; every later failure waits the full minute. */
  lemma {:induction false} TotalBaseClosedForm(n: nat)
    ensures n <= 6 ==> TotalBase(n) == 1000 * (Pow2(n) - 1)
    ensures 6 <= n ==> TotalBase(n) == 63000 + 60000 * (n - 6)
  {
    if n != 0 {
      TotalBaseClosedForm(n - 1);
      Pow2At6();
      if 6 < n {
        Pow2Grows(6, n - 1);
      } else {
        Pow2Grows(n - 1, 5);
      }
    }
  }

  lemma Pow2At6()
    ensures Pow2(5) == 32 && Pow2(6) == 64
  {
    assert Pow2(3) == 8;
    assert Pow2(4) == 16;
  }

  lemma Pow2Grows(m: nat, n: nat)
    requires m <= n
    ensures Pow2(m) <= Pow2(n)
  {
    if m < n { Pow2Grows(m, n - 1); }
  }
}
