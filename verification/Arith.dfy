/** Integer facts shared by the index arithmetic of the other modules. */
module Arith {

  function Min(a: int, b: int): int {
    if a <= b then a else b
  }

  function Max(a: int, b: int): int {
    if a >= b then a else b
  }

  lemma MulMonotone(a: int, b: int, c: nat)
    requires a <= b
    ensures a * c <= b * c
  {
    assert (b - a) * c >= 0;
  }

  lemma {:induction false} MulStrict(a: int, b: int, c: nat)
    ensures a < b ==> a * c + c <= b * c
  {
    if a < b {
      MulMonotone(a + 1, b, c);
    }
  }

  lemma {:induction false} QuotientUnique(q: int, d: int, m: int, size: nat)
    requires 0 <= m < size && q * size == d * size + m
    ensures q == d && m == 0
  {
    MulStrict(q, d, size);
    MulStrict(d, q, size);
  }

  lemma {:induction false} DivCancel(q: int, size: nat)
    requires size > 0
    ensures (q * size) / size == q && (q * size) % size == 0
  {
    QuotientUnique(q, (q * size) / size, (q * size) % size, size);
  }

  /** Slot number `r` of block number `q` is inside the first `n` blocks. */
  lemma SlotInBlocks(q: nat, r: nat, n: nat, size: nat)
    requires q < n && r < size
    ensures q * size + r < q * size + size <= n * size
  {
    MulMonotone(q + 1, n, size);
    assert (q + 1) * size == q * size + size;
  }

  lemma {:induction false} MultipleStep(m: nat, k: nat)
    requires k > 0 && m % k == 0
    ensures m > 0 ==> m >= k && (m - k) % k == 0
    ensures m < k ==> m == 0
  {
    var q := m / k;
    assert m == q * k;
    MulStrict(q, 0, k);
    MulStrict(0, q, k);
    if m > 0 {
      assert m - k == (q - 1) * k;
      DivCancel(q - 1, k);
    }
  }

  /** Between two members of a residue class, one step apart, there is no third. */
  lemma {:induction false} ResidueGap(x: nat, d: nat, step: nat)
    requires 0 < d < step
    ensures (x + d) % step != x % step
  {
    var p, q := x / step, (x + d) / step;
    MulStrict(p, q, step);
    MulStrict(q, p, step);
  }

  lemma {:induction false} ResidueStep(x: nat, step: nat)
    requires step > 0
    ensures (x + step) % step == x % step
  {
    var p, q := x / step, (x + step) / step;
    assert x + step == (p + 1) * step + x % step;
    MulStrict(p + 1, q, step);
    MulStrict(q, p + 1, step);
  }

  lemma SmallModulus(x: nat, step: nat)
    requires x < step
    ensures x % step == x
  {
  }

  lemma MulSucc(n: int, q: int)
    ensures (n + 1) * q == n * q + q
  {
  }

  lemma Distribute(a: int, b: int, c: int)
    ensures (a + b) * c == c * a + c * b
  {
  }

  /** Two numbers lie in one block exactly when the larger does not pass the end of the smaller one's block. */
  lemma {:induction false} SameQuotient(a: nat, x: nat, b: nat, y: nat, size: nat)
    requires x < size && y < size && a * size + x <= b * size + y
    ensures a == b <==> b * size + y < a * size + size
  {
    MulStrict(a, b, size);
    MulStrict(b, a, size);
  }

  lemma {:induction false} SameBlock(m: nat, n: nat, size: nat)
    requires size > 0 && m <= n
    ensures m / size == n / size <==> n < m + (size - m % size)
  {
    SameQuotient(m / size, m % size, n / size, n % size, size);
  }

  lemma {:induction false} FloorMultiple(m: nat, size: nat)
    requires size > 0
    ensures 0 <= m - m % size && (m - m % size) % size == 0
  {
    var q := m / size;
    var floor := q * size;
    assert m == floor + m % size;
    DivCancel(q, size);
    MulMonotone(0, q, size);
  }

  /** With `h` a multiple: `h` is the floor of `m` exactly when `m` is in the block that starts at `h`. */
  lemma {:induction false} FloorUnique(m: nat, h: nat, size: nat)
    requires size > 0 && h % size == 0
    ensures m - m % size == h <==> h <= m < h + size
  {
    var a, b := m / size, h / size;
    assert m == a * size + m % size && h == b * size;
    MulStrict(a, b, size);
    MulStrict(b, a, size);
  }

  /** Quotient and remainder are determined by what they make up. */
  lemma {:induction false} DivModUnique(x: int, d: nat, q: int, r: int)
    requires 0 <= r < d && x == q * d + r
    ensures x / d == q && x % d == r
  {
    MulStrict(q, x / d, d);
    MulStrict(x / d, q, d);
  }

  lemma {:induction false} RemainderPred(r: nat, m: nat)
    requires m > 0 && r > 0 && r % m != 0
    ensures (r - 1) % m == r % m - 1
  {
    var q := r / m;
    assert r - 1 == q * m + (r % m - 1);
    DivModUnique(r - 1, m, q, r % m - 1);
  }

  /** `q` is `a / d`, without a division. */
  ghost predicate Ratio(q: real, a: real, d: real) {
    d > 0.0 && q * d == a
  }
}
