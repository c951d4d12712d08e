/** Multiples of a real, kept as repeated addition so that sums of them stay linear. */
module Sums {

  /** n times a. */
  function Repeated(a: real, n: nat): real {
    if n == 0 then 0.0 else Repeated(a, n - 1) + a
  }

  function Product(a: real, n: int): real { a * n as real }

  lemma {:induction false} RepeatedIsProduct(a: real, n: nat)
    ensures Repeated(a, n) == Product(a, n)
  {
    if n > 0 {
      RepeatedIsProduct(a, n - 1);
      assert a * ((n - 1) as real + 1.0) == a * (n - 1) as real + a;
    }
  }

  lemma {:induction false} RepeatedAdds(a: real, m: nat, n: nat)
    ensures Repeated(a, m + n) == Repeated(a, m) + Repeated(a, n)
  {
    if n > 0 { RepeatedAdds(a, m, n - 1); }
  }

  lemma ProductGrows(a: real, m: nat, n: nat)
    requires 0.0 <= a && m <= n
    ensures Product(a, m) <= Product(a, n)
  {
    ProductNonNegative(a, (n - m) as real);
    assert a * (n - m) as real == a * (n as real - m as real);
  }

  lemma ProductNegates(a: real, n: nat)
    ensures Product(-a, n) == -Product(a, n)
  {
  }

  lemma {:induction false} RepeatedScales(a: real, b: real, n: nat)
    requires a <= b
    ensures Repeated(a, n) <= Repeated(b, n)
  {
    if n > 0 { RepeatedScales(a, b, n - 1); }
  }

  lemma ProductNonNegative(a: real, b: real)
    requires 0.0 <= a && 0.0 <= b
    ensures 0.0 <= a * b
  {
  }

  lemma Reorder(p: real, f: real, x: real)
    ensures p * f * x == f * x * p
  {
  }
}
