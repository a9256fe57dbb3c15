/** Division and remainder facts for block and slot arithmetic. */
module Arith {

  function Min(x: int, y: int): int { if x < y then x else y }

  function Max(x: int, y: int): int { if x < y then y else x }

  function Max0(x: int): nat { if x > 0 then x else 0 }

  /** Blocks of b that cover i indices. */
  function Ceil(i: int, b: int): int
    requires b > 0
  {
    (i + b - 1) / b
  }

  lemma DivBounds(i: int, b: int)
    requires b > 0
    ensures (i / b) * b <= i < (i / b) * b + b
    ensures i % b == i - (i / b) * b
  {}

  lemma DivUnique(i: int, b: int, q: int)
    requires b > 0 && q * b <= i < q * b + b
    ensures i / b == q && i % b == i - q * b
  {
    DivBounds(i, b);
    var d := i / b - q;
    assert (i / b) * b - q * b == d * b;
    if d >= 1 { MulMono(1, d, b); }
    if d <= -1 { MulMono(d, -1, b); }
  }

  lemma MulMono(x: int, y: int, b: int)
    requires b >= 0 && x <= y
    ensures x * b <= y * b
  {
    assert (y - x) * b >= 0;
  }

  lemma DivMono(i: int, j: int, b: int)
    requires b > 0 && i <= j
    ensures i / b <= j / b
  {
    DivBounds(i, b);
    DivBounds(j, b);
    if i / b > j / b { MulMono(j / b + 1, i / b, b); }
  }

  lemma DivExact(q: int, b: int)
    requires b > 0
    ensures (q * b) / b == q && (q * b) % b == 0
  {
    DivUnique(q * b, b, q);
  }

  lemma ModShift(x: int, q: int, n: int)
    requires n > 0
    ensures (x + q * n) % n == x % n && (x + q * n) / n == x / n + q
  {
    DivBounds(x, n);
    assert (x / n + q) * n == (x / n) * n + q * n;
    DivUnique(x + q * n, n, x / n + q);
  }

  /** A remainder may be taken before adding. */
  lemma ModAdd(a: int, b: int, n: int)
    requires n > 0
    ensures (a % n + b) % n == (a + b) % n
  {
    DivBounds(a, n);
    ModShift(a % n + b, a / n, n);
  }

  /** Distinct numbers less than n apart have distinct remainders. */
  lemma ModDistinct(a: int, b: int, n: int)
    requires n > 0 && 0 < b - a < n
    ensures a % n != b % n
  {
    DivBounds(a, n);
    DivBounds(b, n);
    var d := b / n - a / n;
    assert (b / n) * n - (a / n) * n == d * n;
    if a % n == b % n {
      assert d * n == b - a;
      if d >= 1 { MulMono(1, d, n); }
      if d <= 0 { MulMono(d, 0, n); }
    }
  }

  lemma SmallMod(x: int, n: int)
    requires n > 0
    ensures 0 <= x < n ==> x % n == x
    ensures 0 <= x % n < n
  {}

  lemma CeilCovers(i: int, b: int)
    requires b > 0
    ensures i <= Ceil(i, b) * b < i + b
  {
    DivBounds(i + b - 1, b);
  }

  lemma CeilMono(i: int, j: int, b: int)
    requires b > 0 && i <= j
    ensures Ceil(i, b) <= Ceil(j, b)
  {
    DivMono(i + b - 1, j + b - 1, b);
  }

  lemma CeilFloor(i: int, b: nat)
    requires b > 0
    ensures i - 1 - (i - 1) % b == (Ceil(i, b) - 1) * b
  {
    assert i + b - 1 == i - 1 + 1 * b;
    ModShift(i - 1, 1, b);
    DivBounds(i - 1, b);
  }
}
