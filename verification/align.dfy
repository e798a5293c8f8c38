/** Round-up helpers of the memory allocator. Their bodies are not part of
    this model: `alignStorageBufferOffset` is taken to round up to the next
    multiple of the device's storage-buffer alignment and `divideRoundUp` to be
    a ceiling division, both with a positive divisor. */
module Align {

  /** Rounds `offset` up to the least multiple of `alignment` that is not below it. */
  function AlignUp(offset: nat, alignment: nat): (r: nat)
    requires alignment > 0
    ensures r % alignment == 0
    ensures offset <= r < offset + alignment
  {
    var q, rem := offset / alignment, offset % alignment;
    if rem == 0 then offset
    else
      assert (q + 1) * alignment == q * alignment + alignment;
      DivModUnique((q + 1) * alignment, alignment, q + 1, 0);
      (q + 1) * alignment
  }

  /** No multiple of `alignment` at or after `offset` lies below `AlignUp(offset, alignment)`. */
  lemma AlignUpIsLeast(offset: nat, alignment: nat, m: nat)
    requires alignment > 0
    requires m % alignment == 0 && offset <= m
    ensures AlignUp(offset, alignment) <= m
  {
    var r := AlignUp(offset, alignment);
    if m < r {
      MultiplesApart(m, r, alignment);
    }
  }

  /** Ceiling division: the least `r` with `r * d >= n`. */
  function DivideRoundUp(n: nat, d: nat): (r: nat)
    requires d > 0
    ensures r * d >= n
    ensures r == 0 || (r - 1) * d < n
  {
    var q := n / d;
    assert n == q * d + n % d;
    if n % d == 0 then q
    else
      assert (q + 1) * d == q * d + d;
      q + 1
  }

  // ---- arithmetic helpers -------------------------------------------------

  lemma MulAtLeast(k: int, d: int)
    requires d > 0 && k >= 1
    ensures k * d >= d
  {
    assert k * d == (k - 1) * d + d;
    assert (k - 1) * d >= 0;
  }

  /** Euclidean division has exactly one quotient and remainder. */
  lemma DivModUnique(x: int, d: int, q: int, r: int)
    requires d > 0 && x == q * d + r && 0 <= r < d
    ensures x % d == r && x / d == q
  {
    var q0, r0 := x / d, x % d;
    assert x == q0 * d + r0 && 0 <= r0 < d;
    var k := q - q0;
    assert k * d == q * d - q0 * d;
    assert k * d == r0 - r;
    if k >= 1 {
      MulAtLeast(k, d);
    } else if k <= -1 {
      MulAtLeast(-k, d);
    }
  }

  /** Two distinct multiples of `d` are at least `d` apart. */
  lemma MultiplesApart(a: nat, b: nat, d: nat)
    requires d > 0 && a % d == 0 && b % d == 0 && a < b
    ensures a + d <= b
  {
    var qa, qb := a / d, b / d;
    assert a == qa * d && b == qb * d;
    var k := qb - qa;
    assert k * d == b - a;
    if k >= 1 {
      MulAtLeast(k, d);
    }
  }
}
