/** Products and quotients defined by counting, with the few laws that block arithmetic needs. */
module Arithmetic {

  /** `b * m`, added up. */
  function Times(b: nat, m: nat): nat {
    if b == 0 then 0 else Times(b - 1, m) + m
  }

  /** `x / m`, counted by subtracting. */
  function Quotient(x: nat, m: nat): nat
    requires m > 0
  {
    if x < m then 0 else Quotient(x - m, m) + 1
  }

  lemma {:induction false} TimesIs(b: nat, m: nat)
    ensures Times(b, m) == b * m
  {
    if b == 0 {
    } else {
      TimesIs(b - 1, m);
      assert b * m == (b - 1) * m + m;
    }
  }

  lemma QuotientIs(x: nat, m: nat)
    requires m > 0
    ensures Quotient(x, m) == x / m
  {
    var q := Quotient(x, m);
    QuotientBounds(x, m);
    TimesIs(q, m);
    DivisionIs(x, m, q);
  }

  lemma DivisionIs(x: nat, m: nat, q: nat)
    requires m > 0 && q * m <= x < q * m + m
    ensures x / m == q
  {
    var d := x / m - q;
    assert d * m == x / m * m - q * m;
    assert d >= 1 ==> d * m >= m;
    assert d <= -1 ==> d * m + m <= 0;
  }

  lemma TimesOne(b: nat)
    ensures Times(b, 1) == b && Quotient(b, 1) == b
  {
    TimesIs(b, 1);
    QuotientUnique(b, 1, b);
  }

  lemma {:induction false} QuotientBounds(x: nat, m: nat)
    requires m > 0
    ensures var q := Quotient(x, m); Times(q, m) <= x < Times(q, m) + m
  {
    if x >= m { QuotientBounds(x - m, m); }
  }

  lemma {:induction false} QuotientUnique(x: nat, m: nat, b: nat)
    requires m > 0 && Times(b, m) <= x < Times(b, m) + m
    ensures Quotient(x, m) == b
  {
    if b == 0 {
    } else {
      QuotientUnique(x - m, m, b - 1);
    }
  }

  lemma {:induction false} TimesDouble(c: nat, m: nat)
    ensures Times(c, 2 * m) == Times(2 * c, m)
  {
    if c == 0 {
    } else {
      TimesDouble(c - 1, m);
    }
  }

  lemma {:induction false} TimesInjective(a: nat, b: nat, m: nat)
    requires m > 0 && Times(a, m) == Times(b, m)
    ensures a == b
  {
    if a > 0 && b > 0 { TimesInjective(a - 1, b - 1, m); }
  }

  lemma {:induction false} TimesMonotone(a: nat, b: nat, m: nat)
    requires a < b
    ensures Times(a, m) + m <= Times(b, m)
  {
    if a < b - 1 { TimesMonotone(a, b - 1, m); }
  }

  lemma TimesCommutes(a: nat, b: nat)
    ensures Times(a, b) == Times(b, a)
  {
    TimesIs(a, b);
    TimesIs(b, a);
  }

  lemma {:induction false} TimesAdd(a: nat, b: nat, m: nat)
    ensures Times(a + b, m) == Times(a, m) + Times(b, m)
  {
    if b == 0 {
    } else {
      TimesAdd(a, b - 1, m);
    }
  }
}
