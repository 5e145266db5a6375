/** The division facts that the solver does not find by itself. */
module Arith {

  lemma AtLeastOnce(k: nat, t: int)
    ensures t >= 1 ==> k * t >= k
    ensures t <= -1 ==> k * t <= 0 - k
  {
    if t >= 1 { assert k * t == k + k * (t - 1); }
    if t <= -1 { assert k * t == k * (t + 1) - k; }
  }

  /** A quotient and a remainder in range are the ones of the division. */
  lemma DivModUnique(q: nat, r: nat, m: nat)
    requires r < m
    ensures (q * m + r) / m == q && (q * m + r) % m == r
  {
    var k, t := (q * m + r) / m, (q * m + r) % m;
    assert q * m + r == k * m + t;
    assert m * (q - k) == t - r;
    AtLeastOnce(m, q - k);
  }
}
