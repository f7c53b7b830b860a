/** n equal charges, added one at a time as the costing loops do. */
module Multiples {

  function Times(n: nat, charge: real): real {
    if n == 0 then 0.0 else Times(n - 1, charge) + charge
  }

  lemma {:induction false} TimesIsProduct(n: nat, charge: real)
    ensures Times(n, charge) == n as real * charge
  {
    if n > 0 {
      TimesIsProduct(n - 1, charge);
      assert n as real == (n - 1) as real + 1.0;
      assert ((n - 1) as real + 1.0) * charge == (n - 1) as real * charge + charge;
    }
  }

  lemma {:induction false} TimesZero(n: nat)
    ensures Times(n, 0.0) == 0.0
  {
    if n > 0 {
      TimesZero(n - 1);
    }
  }

  lemma {:induction false} TimesAdds(m: nat, n: nat, x: real)
    ensures Times(m + n, x) == Times(m, x) + Times(n, x)
  {
    if n > 0 {
      TimesAdds(m, n - 1, x);
    }
  }

  lemma {:induction false} TimesMonotone(n: nat, x: real, y: real)
    requires x <= y
    ensures Times(n, x) <= Times(n, y)
  {
    if n > 0 {
      TimesMonotone(n - 1, x, y);
    }
  }

  // A fraction or multiple t of d.
  function Part(t: real, d: real): real {
    t * d
  }

  lemma WholePart(d: real)
    ensures Part(1.0, d) == d
  {
  }

  lemma PartSplits(t: real, u: real, d: real)
    ensures Part(t + u, d) == Part(t, d) + Part(u, d)
    ensures Part(t - u, d) == Part(t, d) - Part(u, d)
    ensures Part(t, 0.0) == 0.0
  {
  }

  lemma PartCommutes(t: real, d: real)
    ensures Part(t, d) == Part(d, t)
  {
  }

  // n charges that each contain a fee in proportion to the value.
  lemma {:induction false} TimesAffine(n: nat, fixed: real, value: real, fee: real)
    ensures Times(n, fixed + Part(value, fee)) == Times(n, fixed) + Part(Times(n, fee), value)
  {
    if n == 0 {
      assert Part(0.0, value) == 0.0;
    } else {
      TimesAffine(n - 1, fixed, value, fee);
      PartSplits(Times(n - 1, fee), fee, value);
      PartCommutes(fee, value);
    }
  }

  lemma NonNegative(x: real, y: real)
    requires x >= 0.0 && y >= 0.0
    ensures x * y >= 0.0
    ensures x > 0.0 && y > 0.0 ==> x * y > 0.0
  {
  }

  lemma PartMonotone(t: real, d: real, e: real)
    requires t >= 0.0 && d <= e
    ensures Part(t, d) <= Part(t, e)
  {
    var rise := e - d;
    assert t * rise >= 0.0;
    assert t * e - t * d == t * rise;
  }

  function Power(x: real, n: nat): real {
    if n == 0 then 1.0 else x * Power(x, n - 1)
  }
}
