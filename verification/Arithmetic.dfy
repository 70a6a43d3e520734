/** What the limiter's windows and the token's ages need of multiplication. */
module Arithmetic {
  lemma MulOrder(a: nat, b: nat, d: nat)
    requires a <= b
    ensures a * d <= b * d
  {
    assert b * d == a * d + (b - a) * d;
  }
}
