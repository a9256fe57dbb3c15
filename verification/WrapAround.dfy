/** Indices are unsigned words that wrap around.

    The other modules count with unbounded integers; here the machine's expressions are evaluated on words
    and shown to give what those modules compute.  `word` is 2^w; the block size and the index sizes are
    powers of two, so they divide it, and masking with size - 1 is taking the remainder. */
module WrapAround {
  import opened Arith

  /** An unbounded index as the machine stores it. */
  function Wrap(x: int, word: nat): (r: nat)
    requires word > 0
    ensures r < word
  {
    x % word
  }

  predicate Divides(b: nat, word: nat) { b > 0 && word % b == 0 }

  /** x & ~(b - 1) */
  function Mask(x: nat, b: nat): nat
    requires b > 0
  {
    x - x % b
  }

  /** circular_less_than */
  predicate CircularLess(a: nat, b: nat, word: nat)
    requires word > 0
  {
    Wrap(a - b, word) > word / 2
  }

  lemma WrapWrap(a: int, b: int, word: nat)
    requires word > 0
    ensures Wrap(Wrap(a, word) - Wrap(b, word), word) == Wrap(a - b, word)
    ensures Wrap(Wrap(a, word) + b, word) == Wrap(a + b, word)
  {
    DivBounds(a, word);
    DivBounds(b, word);
    assert a - b == Wrap(a, word) - Wrap(b, word) + (a / word - b / word) * word;
    ModShift(Wrap(a, word) - Wrap(b, word), a / word - b / word, word);
    ModAdd(a, b, word);
  }

  lemma WrapSmall(x: int, word: nat)
    requires word > 0
    ensures 0 <= x < word ==> Wrap(x, word) == x
    ensures 0 - word <= x < 0 ==> Wrap(x, word) == x + word
  {
    if 0 <= x < word { DivUnique(x, word, 0); }
    if 0 - word <= x < 0 { DivUnique(x, word, -1); }
  }

  /** The comparison of words agrees with the comparison of indices less than a word apart if and only if
      the first is less than half a word below the second, and at most half a word above it. */
  lemma CircularLessAgrees(a: int, b: int, word: nat)
    requires word > 0 && word % 2 == 0 && 0 - word < a - b < word
    ensures (CircularLess(Wrap(a, word), Wrap(b, word), word) <==> a < b) <==> 0 - word / 2 < a - b <= word / 2
  {
    WrapWrap(a, b, word);
    WrapSmall(a - b, word);
  }

  /** The check before a new block: refused unless the indices up to the end of that block stay within half
      a word of the head. */
  predicate Refused(head: int, tail: int, b: nat, word: nat)
    requires word > 0
  {
    !CircularLess(Wrap(head, word), Wrap(tail + b, word), word)
  }

  lemma RefusedWhen(head: int, tail: int, b: nat, word: nat)
    requires word > 0 && word % 2 == 0 && head <= tail && 0 < b && tail + b - head < word
    ensures Refused(head, tail, b, word) <==> tail + b - head >= word / 2
  {
    CircularLessAgrees(head, tail + b, word);
  }

  /** After a block has been accepted, all comparisons between indices in use are those of integers. */
  lemma AcceptedComparisons(head: int, tail: int, b: nat, word: nat, i: int, j: int)
    requires word > 0 && word % 2 == 0 && head <= tail && 0 < b && tail + b - head < word
    requires !Refused(head, tail, b, word) && head <= i <= tail + b && head <= j <= tail + b
    ensures CircularLess(Wrap(i, word), Wrap(j, word), word) <==> i < j
  {
    RefusedWhen(head, tail, b, word);
    CircularLessAgrees(i, j, word);
  }

  // ---------------------------------------------------------------- blocks

  /** Masking commutes with wrapping. */
  lemma MaskWraps(x: int, b: nat, word: nat)
    requires word > 0 && Divides(b, word)
    ensures Mask(Wrap(x, word), b) == Wrap(x - x % b, word) && Wrap(x, word) % b == x % b
  {
    DivBounds(x, word);
    DivBounds(word, b);
    var q := x / word;
    assert word == (word / b) * b;
    assert Wrap(x, word) == x + (-q * (word / b)) * b by {
      assert q * word == q * ((word / b) * b);
      assert q * ((word / b) * b) == (q * (word / b)) * b;
      assert (-q * (word / b)) * b == -((q * (word / b)) * b);
    }
    ModShift(x, -q * (word / b), b);
    var y := x - x % b;
    assert y == Mask(Wrap(x, word), b) + q * word;
    ModShift(Mask(Wrap(x, word), b), q, word);
    WrapSmall(Mask(Wrap(x, word), b), word);
  }

  /** The index space a bulk insertion of n elements at tail s reserves. */
  function BlockBaseDiff(s: nat, n: nat, b: nat, word: nat): nat
    requires word > 0 && b > 0
  {
    Wrap(Mask(Wrap(s + n - 1, word), b) - Mask(Wrap(s - 1, word), b), word)
  }

  lemma CeilDiff(s: int, n: nat, b: nat)
    requires b > 0
    ensures 0 <= Ceil(s + n, b) - Ceil(s, b) && (Ceil(s + n, b) - Ceil(s, b)) * b < n + b
  {
    DivMono(s + b - 1, s + n + b - 1, b);
    DivBounds(s + b - 1, b);
    DivBounds(s + n + b - 1, b);
    assert (Ceil(s + n, b) - Ceil(s, b)) * b == Ceil(s + n, b) * b - Ceil(s, b) * b;
  }

  /** The block boundary below index x. */
  lemma MaskedBelow(x: int, b: nat, word: nat)
    requires word > 0 && Divides(b, word)
    ensures Mask(Wrap(x - 1, word), b) == Wrap((Ceil(x, b) - 1) * b, word)
  {
    MaskWraps(x - 1, b, word);
    CeilFloor(x, b);
  }

  lemma BlockBaseDiffIs(s: nat, n: nat, b: nat, word: nat)
    requires word > 0 && Divides(b, word)
    ensures BlockBaseDiff(Wrap(s, word), n, b, word) == Wrap((Ceil(s + n, b) - Ceil(s, b)) * b, word)
  {
    hide Ceil, Mask, Wrap;
    WrapWrap(s, n - 1, word);
    WrapWrap(s, -1, word);
    MaskedBelow(s + n, b, word);
    MaskedBelow(s, b, word);
    var p, q := Ceil(s + n, b) - 1, Ceil(s, b) - 1;
    WrapWrap(p * b, q * b, word);
    assert p * b - q * b == (p - q) * b;
  }

  /** It is a block for each multiple of the block size that the insertion reaches, wherever the tail is:
      at zero, where the word below it wraps, and past any number of wrap-arounds. */
  lemma BlockBaseDiffCounts(s: nat, n: nat, b: nat, word: nat)
    requires word > 0 && Divides(b, word) && n + b <= word
    ensures BlockBaseDiff(Wrap(s, word), n, b, word) == (Ceil(s + n, b) - Ceil(s, b)) * b
    ensures BlockBaseDiff(Wrap(s, word), n, b, word) / b == Ceil(s + n, b) - Ceil(s, b)
  {
    var d := Ceil(s + n, b) - Ceil(s, b);
    BlockBaseDiffIs(s, n, b, word);
    CeilDiff(s, n, b);
    MulMono(0, d, b);
    WrapSmall(d * b, word);
    DivExact(d, b);
  }

  // ---------------------------------------------------------------- slots

  /** A word read as a signed number. */
  function Signed(x: nat, word: nat): int { if x < word / 2 then x else x - word }

  /** Division that truncates toward zero. */
  function Truncated(x: int, b: nat): int
    requires b > 0
  {
    if x >= 0 then x / b else -((-x) / b)
  }

  /** The slot of index i, reached from the slot `at` whose entry has base `base`.  When the index type and
      the size type are the same, the signed difference is converted back, and the division is unsigned. */
  function SlotUnsigned(i: nat, base: nat, at: nat, size: nat, b: nat, word: nat): nat
    requires word > 0 && b > 0 && size > 0
  {
    Wrap(at + Wrap(Mask(i, b) - base, word) / b, word) % size
  }

  /** The same when the index type is wider than the size type, of `half` values: the division is signed,
      and its result is truncated. */
  function SlotSigned(i: nat, base: nat, at: nat, size: nat, b: nat, word: nat, half: nat): nat
    requires word > 0 && half > 0 && b > 0 && size > 0
  {
    Wrap(at + Wrap(Truncated(Signed(Wrap(Mask(i, b) - base, word), word), b), half), half) % size
  }

  /** The same when the index type is narrower than the size type, of `wide` values: the signed difference is
      extended to the size type, where the division is unsigned. */
  function SlotNarrow(i: nat, base: nat, at: nat, size: nat, b: nat, word: nat, wide: nat): nat
    requires word > 0 && wide > 0 && b > 0 && size > 0
  {
    Wrap(at + Wrap(Signed(Wrap(Mask(i, b) - base, word), word), wide) / b, wide) % size
  }

  lemma ModDivides(x: int, size: nat, word: nat)
    requires size > 0 && word > 0 && Divides(size, word)
    ensures Wrap(x, word) % size == x % size
  {
    DivBounds(x, word);
    DivBounds(word, size);
    var q, m := x / word, word / size;
    assert word == m * size;
    assert Wrap(x, word) == x + (-q * m) * size by {
      assert q * word == (q * m) * size;
      assert (-q * m) * size == -((q * m) * size);
    }
    ModShift(x, -q * m, size);
  }

  /** The distance of two blocks as the machine sees it. */
  lemma BlockDistance(i: nat, k: int, b: nat, word: nat)
    requires word > 0 && Divides(b, word)
    ensures Wrap(Mask(Wrap(i, word), b) - Wrap(k * b, word), word) == Wrap((i / b - k) * b, word)
  {
    MaskWraps(i, b, word);
    DivBounds(i, b);
    WrapWrap(i - i % b, k * b, word);
    assert i - i % b - k * b == (i / b - k) * b;
  }

  /** With unsigned division the slot is right for every pair of blocks, before or after each other and
      wrapped or not, in any index of up to word / b slots. */
  lemma UnsignedSlotIsRight(i: nat, k: int, at: nat, size: nat, b: nat, word: nat)
    requires word > 0 && b > 0 && size > 0 && Divides(b, word) && Divides(size, word / b)
    ensures SlotUnsigned(Wrap(i, word), Wrap(k * b, word), at, size, b, word) == (at + (i / b - k)) % size
  {
    BlockDistance(i, k, b, word);
    UnsignedOffset(i / b - k, at, size, b, word);
  }

  /** An unsigned division of a wrapped distance of d blocks leads d slots on. */
  lemma UnsignedOffset(d: int, at: nat, size: nat, b: nat, word: nat)
    requires word > 0 && b > 0 && size > 0 && Divides(b, word) && Divides(size, word / b)
    ensures Wrap(at + Wrap(d * b, word) / b, word) % size == (at + d) % size
  {
    var m := word / b;
    DivBounds(word, b);
    assert word == m * b;
    WrappedQuotient(d, m, b, word);
    MultipleDivides(size, m, b, word);
    ModDivides(at + Wrap(d * b, word) / b, size, word);
    ModDivides(d, size, m);
    ModAdd(Wrap(d, m), at, size);
    ModAdd(d, at, size);
  }

  /** (d * b mod word) / b is d modulo word / b. */
  lemma WrappedQuotient(d: int, m: nat, b: nat, word: nat)
    requires b > 0 && m > 0 && word == m * b
    ensures Wrap(d * b, word) / b == Wrap(d, m)
  {
    DivBounds(d, m);
    var q, r := d / m, d % m;
    assert d * b == r * b + q * word by {
      assert d == r + q * m;
      assert (r + q * m) * b == r * b + (q * m) * b;
      assert (q * m) * b == q * (m * b);
    }
    MulMono(0, r, b);
    MulMono(r + 1, m, b);
    assert (r + 1) * b == r * b + b;
    DivUnique(d * b, word, q);
    DivExact(r, b);
  }

  lemma MultipleDivides(size: nat, m: nat, b: nat, word: nat)
    requires size > 0 && word == m * b && m % size == 0
    ensures word % size == 0
  {
    DivBounds(m, size);
    assert word == (m / size * b) * size by {
      assert m == (m / size) * size;
      assert ((m / size) * size) * b == (m / size * b) * size;
    }
    DivExact(m / size * b, size);
  }

  /** With signed division it is right for blocks less than half a word apart, which those in use are. */
  lemma SignedSlotIsRight(i: nat, k: int, at: nat, size: nat, b: nat, word: nat, half: nat)
    requires word > 0 && half > 0 && b > 0 && size > 0 && word % 2 == 0 && Divides(b, word) && Divides(size, half)
    requires 0 - word / 2 <= (i / b - k) * b < word / 2
    ensures SlotSigned(Wrap(i, word), Wrap(k * b, word), at, size, b, word, half) == (at + (i / b - k)) % size
  {
    var d := i / b - k;
    BlockDistance(i, k, b, word);
    WrapSmall(d * b, word);
    assert Signed(Wrap(d * b, word), word) == d * b;
    DivExact(d, b);
    DivExact(-d, b);
    assert -(d * b) == (-d) * b;
    assert Truncated(d * b, b) == d;
    ModDivides(at + Wrap(d, half), size, half);
    ModDivides(d, size, half);
    ModAdd(Wrap(d, half), at, size);
    ModAdd(d, at, size);
  }

  /** With a narrower index type it is right for blocks less than half a word apart, in any index of up to
      wide / b slots. */
  lemma NarrowSlotIsRight(i: nat, k: int, at: nat, size: nat, b: nat, word: nat, wide: nat)
    requires word > 0 && wide > 0 && b > 0 && size > 0 && word % 2 == 0
    requires Divides(b, word) && Divides(b, wide) && Divides(size, wide / b)
    requires 0 - word / 2 <= (i / b - k) * b < word / 2
    ensures SlotNarrow(Wrap(i, word), Wrap(k * b, word), at, size, b, word, wide) == (at + (i / b - k)) % size
  {
    var d := i / b - k;
    BlockDistance(i, k, b, word);
    WrapSmall(d * b, word);
    assert Signed(Wrap(d * b, word), word) == d * b;
    UnsignedOffset(d, at, size, b, wide);
  }
}
