/** Powers of two and multiples: the arithmetic behind aligned blocks. */
module Multiples {

  function Pow2(k: nat): (r: nat)
    ensures r >= 1
  {
    if k == 0 then 1 else 2 * Pow2(k - 1)
  }

  function Product(n: nat, size: nat): (r: nat) {
    n * size
  }

  predicate IsMultiple(n: nat, size: nat)
    requires size >= 1
  {
    n % size == 0
  }

  function Quotient(n: nat, size: nat): (q: nat)
    requires size >= 1
  {
    n / size
  }

  lemma {:induction false} Distribute(x: int, y: int, n: int)
    ensures (x + y) * n == x * n + y * n
  {
  }

  lemma {:induction false} Associate(x: int, y: int, z: int)
    ensures (x * y) * z == x * (y * z)
  {
  }

  lemma {:induction false} Pow2Sum(a: nat, b: nat)
    ensures Pow2(a + b) == Pow2(a) * Pow2(b)
  {
    if a > 0 {
      Pow2Sum(a - 1, b);
      Associate(2, Pow2(a - 1), Pow2(b));
    }
  }

  lemma {:induction false} MulMono(x: int, y: int, n: nat)
    requires x <= y
    ensures x * n <= y * n
  {
  }

  lemma {:induction false} MulLess(x: int, y: int, n: nat)
    requires x * n < y * n
    ensures x < y
  {
    if x >= y {
      MulMono(y, x, n);
    }
  }

  /** A multiple is what its name says. */
  lemma {:induction false} MultipleHasQuotient(n: nat, size: nat)
    requires size >= 1 && IsMultiple(n, size)
    ensures n == Quotient(n, size) * size
  {
  }

  lemma {:induction false} ProductIsMultiple(q: nat, size: nat)
    requires size >= 1
    ensures IsMultiple(q * size, size) && Quotient(q * size, size) == q
  {
    var n := q * size;
    var k, r := n / size, n % size;
    assert n == k * size + r;
    if k < q {
      MulMono(k + 1, q, size);
      Distribute(k, 1, size);
    } else if q < k {
      MulMono(q + 1, k, size);
      Distribute(q, 1, size);
    }
  }
}
