/** Quotients and remainders, which the solver does not relate by itself. */
module DivMod {

  lemma DivModUnique(s: int, m: nat, q: int, r: int)
    requires m > 0 && 0 <= r < m && s == m * q + r
    ensures s / m == q && s % m == r
  {
    DivModExists(s, m);
    QuotientsAgree(m, s / m, s % m, q, r);
  }

  lemma DivModExists(s: int, m: nat)
    requires m > 0
    ensures s == m * (s / m) + s % m && 0 <= s % m < m
  {
  }

  lemma QuotientsAgree(m: nat, q: int, r: int, q': int, r': int)
    requires 0 <= r < m && 0 <= r' < m && m * q + r == m * q' + r'
    ensures q == q' && r == r'
  {
    var k := q - q';
    assert m * k == r' - r by { assert m * k == m * q - m * q'; }
    MultipleIsFar(m, k);
  }

  lemma MultipleIsFar(m: nat, k: int)
    ensures k >= 1 ==> m * k >= m
    ensures k <= -1 ==> m * k + m <= 0
  {
    if k >= 1 {
      assert m * k == m + m * (k - 1);
    } else if k <= -1 {
      assert m * k == m * (k + 1) - m;
    }
  }
}
