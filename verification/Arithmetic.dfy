/** The little arithmetic that the proofs share. */
module Arithmetic {

  /** Unsigned division, as repeated subtraction: stated this way so that no proof about a state
      machine has to meet a quotient by a variable clock rate. QuotIsDivision says it is `/`. */
  function Quot(a: nat, b: nat): nat
    requires b > 0
  {
    if a < b then 0 else 1 + Quot(a - b, b)
  }

  lemma MulMonotone(a: nat, b: nat, c: nat)
    requires a <= b
    ensures a * c <= b * c
  {}

  lemma DivUnique(a: nat, b: nat, q: nat, r: nat)
    requires b > 0 && a == q * b + r && r < b
    ensures a / b == q
  {
    var q' := a / b;
    assert q' * b <= a < q' * b + b;
    if q' < q { MulMonotone(q' + 1, q, b); }
    if q' > q { MulMonotone(q + 1, q', b); }
  }

  /** The defining property of a quotient. */
  lemma {:induction false} QuotBounds(a: nat, b: nat)
    requires b > 0
    ensures Quot(a, b) * b <= a < Quot(a, b) * b + b
  {
    if a >= b { QuotBounds(a - b, b); }
  }

  lemma QuotIsDivision(a: nat, b: nat)
    requires b > 0
    ensures Quot(a, b) == a / b
  {
    QuotBounds(a, b);
    DivUnique(a, b, Quot(a, b), a - Quot(a, b) * b);
  }

  lemma {:induction false} QuotMonotone(a: nat, b: nat, d: nat)
    requires d > 0 && a <= b
    ensures Quot(a, d) <= Quot(b, d)
  {
    if a >= d { QuotMonotone(a - d, b - d, d); }
  }

  function Min(a: nat, b: nat): nat { if a < b then a else b }

  function Pow2(n: nat): (p: nat)
    ensures p > 0
  {
    if n == 0 then 1 else 2 * Pow2(n - 1)
  }
}
