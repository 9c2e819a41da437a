/** Shared value types and the little integer arithmetic the time axis needs. */
module Common {

  datatype Option<+T> = None | Some(value: T)

  datatype Result<+T, +E> = Ok(value: T) | Err(error: E)

  const U32_MAX: nat := 0xFFFF_FFFF

  /** The last instant the program handles: the end of the year 9999. */
  const MAX_TIME_MS: int := 253_402_300_799_999

  function Max(a: int, b: int): int {
    if a < b then b else a
  }

  function MaxReal(a: real, b: real): real {
    if a < b then b else a
  }

  function MinReal(a: real, b: real): real {
    if b < a then b else a
  }

  /** Start of the `width`-wide bucket containing `t`, aligned to the Unix epoch. */
  function BucketStart(t: int, width: int): int
    requires 0 < width
  {
    t / width * width
  }

  predicate Aligned(t: int, width: int)
    requires 0 < width
  {
    t % width == 0
  }

  lemma BucketContains(t: int, width: int)
    requires 0 < width
    ensures BucketStart(t, width) <= t < BucketStart(t, width) + width
    ensures BucketStart(t, width) % width == 0 && Aligned(BucketStart(t, width), width)
  {
    ProductIsMultiple(t / width, width);
  }

  /** The bucket of `t` is the only aligned interval of that width that contains `t`. */
  lemma BucketUnique(t: int, start: int, width: int)
    requires 0 < width && start % width == 0 && start <= t < start + width
    ensures BucketStart(t, width) == start
  {
    var b := BucketStart(t, width);
    BucketContains(t, width);
    MultiplesAreSpaced(b, start, width);
  }

  lemma BucketMonotone(t: int, u: int, width: int)
    requires 0 < width && t <= u
    ensures BucketStart(t, width) <= BucketStart(u, width)
  {
    BucketContains(t, width);
    BucketContains(u, width);
    if BucketStart(u, width) < BucketStart(t, width) {
      BucketUnique(u, BucketStart(t, width), width);
    }
  }

  /** `n` widths of time. */
  function Widths(n: int, width: int): int {
    n * width
  }

  lemma WidthsStep(n: int, width: int)
    ensures Widths(n + 1, width) == Widths(n, width) + width
    ensures Widths(0, width) == 0
  {
  }

  lemma WidthsInjective(m: int, n: int, width: int)
    requires 0 < width && Widths(m, width) == Widths(n, width)
    ensures m == n
  {
    MultipleIsFar(m - n, width);
    assert (m - n) * width == m * width - n * width;
  }

  lemma WidthsOfQuotient(total: int, width: int)
    requires 0 < width && total % width == 0
    ensures Widths(total / width, width) == total
  {
  }

  lemma MultipleIsFar(k: int, w: int)
    requires 0 < w
    ensures 1 <= k ==> w <= k * w
    ensures k <= -1 ==> k * w <= -w
  {
    assert (k - 1) * w == k * w - w && (k + 1) * w == k * w + w;
  }

  lemma ProductIsMultiple(q: int, w: int)
    requires 0 < w
    ensures (q * w) % w == 0 && q * w / w == q
  {
    var p := q * w;
    var d := p / w;
    assert p == d * w + p % w;
    assert (q - d) * w == q * w - d * w;
    MultipleIsFar(q - d, w);
  }

  /** Two multiples of `w` closer than `w` are equal. */
  lemma MultiplesAreSpaced(a: int, b: int, w: int)
    requires 0 < w && a % w == 0 && b % w == 0 && -w < a - b < w
    ensures a == b
  {
    var p, q := a / w, b / w;
    assert a == p * w && b == q * w;
    assert (p - q) * w == p * w - q * w;
    MultipleIsFar(p - q, w);
  }

  /** Divisibility is transitive. */
  lemma MultipleOfMultiple(m: int, w: int, n: int)
    requires 0 < m && 0 < w && w % m == 0 && n % w == 0
    ensures n % m == 0
  {
    assert n == n / w * w && w == w / m * m;
    assert n == (n / w * (w / m)) * m;
    ProductIsMultiple(n / w * (w / m), m);
  }

  lemma SumOfMultiples(a: int, b: int, w: int)
    requires 0 < w && a % w == 0 && b % w == 0
    ensures (a + b) % w == 0 && (a - b) % w == 0
  {
    assert a == a / w * w && b == b / w * w;
    assert a + b == (a / w + b / w) * w;
    assert a - b == (a / w - b / w) * w;
    ProductIsMultiple(a / w + b / w, w);
    ProductIsMultiple(a / w - b / w, w);
  }
}
