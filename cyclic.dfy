/** Indices that wrap around a row of `n` slides, as the sliders' next and
    prev buttons and their automatic advance move them. */
module Cyclic {

  /** The index after a step forward, wrapping from the last to the first. */
  function Next(current: int, n: nat): int
    requires n > 0
  {
    (current + 1) % n
  }

  /** The index after a step back, wrapping from the first to the last. */
  function Prev(current: int, n: nat): int
    requires n > 0
  {
    (current - 1 + n) % n
  }

  /** Both moves stay in `[0, n)`, and each undoes the other. */
  lemma NextPrevInverse(current: int, n: nat)
    requires n > 0 && 0 <= current < n
    ensures 0 <= Next(current, n) < n && 0 <= Prev(current, n) < n
    ensures Prev(Next(current, n), n) == current
    ensures Next(Prev(current, n), n) == current
  {
    if current == n - 1 {
      ModBy(current + 1, n, 1);
    } else {
      ModBy(current + 1, n, 0);
    }
    var p := Prev(current, n);
    if current == 0 {
      ModBy(current - 1 + n, n, 0);
      ModBy(p + 1, n, 1);
    } else {
      ModBy(current - 1 + n, n, 1);
      ModBy(p + 1, n, 0);
    }
    var q := Next(current, n);
    if q == 0 {
      ModBy(q - 1 + n, n, 0);
    } else {
      ModBy(q - 1 + n, n, 1);
    }
  }

  /** `x % n` for an `x` known to lie in `[q * n, (q + 1) * n)`, `q` being 0
      or 1. */
  lemma ModBy(x: int, n: int, q: int)
    requires n > 0 && (q == 0 || q == 1) && q * n <= x < q * n + n
    ensures x % n == x - q * n
  {
    if q == 1 {
      assert (x - n) % n == x - n;
      assert x % n == (x - n) % n;
    }
  }
}
