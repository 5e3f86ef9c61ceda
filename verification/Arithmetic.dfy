// Integer operations shared by the components.
module Arithmetic {

  function Min(a: int, b: int): int {
    if a < b then a else b
  }

  // n copies of v added up: multiplication the solver treats as opaque.
  function Mul(n: nat, v: int): int {
    if n == 0 then 0 else v + Mul(n - 1, v)
  }

  lemma {:induction false} MulIsProduct(n: nat, v: int)
    ensures Mul(n, v) == n * v
  {
    if n == 0 {
    } else {
      MulIsProduct(n - 1, v);
      assert n * v == v + (n - 1) * v;
    }
  }
}
