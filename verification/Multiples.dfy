/** Multiples of a size, as the loops that add it up again and again arrive at them. */
module Multiples {
  function Times(n: nat, size: nat): nat {
    if n == 0 then 0 else Times(n - 1, size) + size
  }

  lemma {:induction false} TimesIsProduct(n: nat, size: nat)
    ensures Times(n, size) == n * size
  {
    if n > 0 { TimesIsProduct(n - 1, size); }
  }

  lemma {:induction false} TimesGrows(a: nat, b: nat, size: nat)
    requires a <= b
    ensures Times(a, size) <= Times(b, size)
  {
    if a < b { TimesGrows(a, b - 1, size); }
  }

  lemma Quotient(n: nat, size: nat)
    requires 0 < size
    ensures Times(n / size, size) == n - n % size
  {
    TimesIsProduct(n / size, size);
  }
}
