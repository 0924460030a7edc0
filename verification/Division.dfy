/** Division by a block size that is a parameter. */
module Division {
  /** math.ceil(tokens / size). */
  function Ceil(tokens: int, size: int): int
    requires size > 0
  {
    (tokens + size - 1) / size
  }

  lemma MulMono(a: int, b: int, d: int)
    requires a <= b && d >= 0
    ensures a * d <= b * d
  {}

  lemma DivUnique(x: int, d: int, q: int, r: int)
    requires d > 0 && x == q * d + r && 0 <= r < d
    ensures x / d == q
  {
    var p := x / d;
    var s := x % d;
    assert x == p * d + s;
    if p < q { MulMono(p + 1, q, d); }
    if q < p { MulMono(q + 1, p, d); }
  }

  lemma DivMono(a: int, b: int, d: int)
    requires d > 0 && a <= b
    ensures a / d <= b / d
  {
    var p, q := a / d, b / d;
    assert a == p * d + a % d && b == q * d + b % d;
    if q < p { MulMono(q + 1, p, d); }
  }

  /** The least number of blocks of this size that hold `tokens` tokens. */
  lemma CeilMeans(tokens: int, size: int, n: int)
    requires size > 0
    ensures n == Ceil(tokens, size) <==> tokens <= n * size && (n - 1) * size < tokens
  {
    var q, r := Ceil(tokens, size), (tokens + size - 1) % size;
    assert tokens + size - 1 == q * size + r;
    assert (q - 1) * size == q * size - size && (n - 1) * size == n * size - size;
    if tokens <= n * size && (n - 1) * size < tokens {
      DivUnique(tokens + size - 1, size, n, tokens + size - 1 - n * size);
    }
  }

  lemma CeilMono(a: int, b: int, size: int)
    requires size > 0 && a <= b
    ensures Ceil(a, size) <= Ceil(b, size)
  {
    DivMono(a + size - 1, b + size - 1, size);
  }

  lemma CeilMultiple(k: int, size: int)
    requires size > 0
    ensures Ceil(k * size, size) == k
  {
    DivUnique(k * size + size - 1, size, k, size - 1);
  }

  /** Full blocks before the last token, and the block that holds it. */
  lemma FullBelowCeil(n: int, size: int)
    requires size > 0
    ensures (n - 1) / size + 1 == Ceil(n, size)
  {
    var q, r := (n - 1) / size, (n - 1) % size;
    assert n - 1 == q * size + r;
    assert (q + 1) * size == q * size + size;
    DivUnique(n + size - 1, size, q + 1, r);
  }

  /** Full blocks never need more room than all tokens. */
  lemma FullAtMostCeil(n: int, size: int)
    requires size > 0
    ensures n / size <= Ceil(n, size)
  {
    DivMono(n, n + size - 1, size);
  }

  lemma FullTokens(n: int, size: int, k: nat)
    requires size > 0 && n >= 0 && k <= n / size
    ensures k * size <= n
  {
    MulMono(k, n / size, size);
    assert n == (n / size) * size + n % size;
  }
}
