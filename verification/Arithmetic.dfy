/** Powers of two, quotients and remainders, as shifts and masks use them. */
module Arithmetic {
  function Pow2(n: nat): (p: nat)
    ensures p >= 1
  {
    if n == 0 then 1 else 2 * Pow2(n - 1)
  }

  function Low(a: nat, bits: nat): nat { a % Pow2(bits) }
  function High(a: nat, bits: nat): nat { Div(a, Pow2(bits)) }

  function Div(a: nat, p: nat): nat
    requires p > 0
  {
    a / p
  }

  lemma PowZero()
    ensures Pow2(0) == 1
  {
  }

  lemma {:induction false} PowAdd(a: nat, b: nat)
    ensures Pow2(a + b) == Pow2(a) * Pow2(b)
  {
    if a > 0 { PowAdd(a - 1, b); }
  }

  lemma PowStep(n: nat)
    ensures Pow2(n + 1) == 2 * Pow2(n)
  {
  }

  lemma {:induction false} PowMonotone(a: nat, b: nat)
    requires a <= b
    ensures Pow2(a) <= Pow2(b)
  {
    if a < b { PowMonotone(a, b - 1); }
  }

  lemma PowStrict(a: nat, b: nat)
    requires a < b
    ensures Pow2(a) < Pow2(b)
  {
    PowMonotone(a + 1, b);
  }

  lemma {:induction false} MulLe(a: nat, b: nat, m: nat)
    requires a <= b
    ensures a * m <= b * m
  {
    if a < b {
      MulLe(a, b - 1, m);
      assert (b - 1) * m + m == b * m;
    }
  }

  lemma Below(x: nat, y: nat, n: nat, m: nat)
    requires x < n && y < m
    ensures x * m + y < n * m
  {
    MulLe(x + 1, n, m);
    assert (x + 1) * m == x * m + m;
  }

  lemma Quotient(a: nat, m: nat, q: nat, r: nat)
    requires m > 0 && a == q * m + r && r < m
    ensures a / m == q && a % m == r
  {
    var d, e := a / m, a % m;
    assert a == d * m + e;
    assert d < q ==> (d + 1) * m <= q * m;
    assert q < d ==> (q + 1) * m <= d * m;
  }

  /** Quotient and remainder taken twice are quotient and remainder of the product. */
  lemma DivTwice(a: nat, m: nat, n: nat)
    requires m > 0 && n > 0
    ensures a / (n * m) == (a / m) / n && (a % (n * m)) / m == (a / m) % n
  {
    var q, r := a / m, a % m;
    var q', r' := q / n, q % n;
    DivTwiceOf(a, m, n, q, r, q', r');
  }

  lemma DivTwiceOf(a: nat, m: nat, n: nat, q: nat, r: nat, q': nat, r': nat)
    requires m > 0 && n > 0 && n * m > 0 && a == q * m + r && r < m && q == q' * n + r' && r' < n
    ensures a / (n * m) == q' && (a % (n * m)) / m == r'
  {
    Regroup(a, q, r, q', r', m, n);
    Below(r', r, n, m);
    Quotient(a, n * m, q', r' * m + r);
    Quotient(r' * m + r, m, r', r);
  }

  lemma Regroup(a: nat, q: nat, r: nat, q': nat, r': nat, m: nat, n: nat)
    requires a == q * m + r && q == q' * n + r'
    ensures a == q' * (n * m) + (r' * m + r)
  {
    assert (q' * n + r') * m == q' * (n * m) + r' * m;
  }

  lemma PutTogether(a: nat, m: nat, n: nat)
    requires m > 0 && n > 0
    ensures n * m > 0
    ensures ((a / (n * m)) * n + (a % (n * m)) / m) * m + a % m == a
    ensures (a % (n * m)) / m < n && a % m < m
  {
    DivTwice(a, m, n);
    var q := a / m;
    assert q == (q / n) * n + q % n;
  }

  lemma NumberOf(a: nat, m: nat, n: nat)
    requires m > 0 && n > 0
    ensures n * m > 0 && a / (n * m) == (a / m) / n && (a % (n * m)) / m == (a / m) % n
    ensures a / m == ((a / m) / n) * n + (a / m) % n
  {
    DivTwice(a, m, n);
  }

  lemma DivMod(a: nat, m: nat)
    requires m > 0
    ensures a == a % m + m * (a / m) && a % m < m
  {
  }

  lemma HighZero(a: nat)
    ensures High(a, 0) == a
  {
  }

  lemma HighStep(a: nat, n: nat)
    ensures High(a, n + 1) == High(a, n) / 2
  {
    hide Pow2;
    PowStep(n);
    DivTwice(a, Pow2(n), 2);
  }

  lemma HighPositive(a: nat, n: nat)
    ensures High(a, n) > 0 <==> a >= Pow2(n)
  {
    hide Pow2;
    DivMod(a, Pow2(n));
    var p, q := Pow2(n), a / Pow2(n);
    assert q > 0 ==> p * q >= p;
  }

  lemma LowFits(v: nat, n: nat)
    ensures Low(v, n) < Pow2(n)
  {
  }

  lemma PowPositive(n: nat)
    ensures 0 < Pow2(n)
  {
  }
}
