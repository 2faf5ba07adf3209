/** The field of integers modulo a prime, the setting of every secret sharing scheme here. */
module Zp {
  import opened Wrappers

  predicate Prime(p: int) {
    p > 1 && forall d :: 1 < d < p ==> p % d != 0
  }

  /** `a` and `b` are the same element. */
  predicate Eq(p: int, a: int, b: int)
    requires p > 0
  {
    a % p == b % p
  }

  /** A canonical representative. */
  predicate Canonical(p: int, a: int) { 0 <= a < p }

  lemma AtLeast(m: int, p: int)
    requires m > 0 && p > 0
    ensures m * p >= p
  {
    assert (m - 1) * p >= 0;
  }

  lemma Unique(p: int, q: int, r: int, s: int, t: int)
    requires p > 0 && 0 <= r < p && 0 <= t < p && q * p + r == s * p + t
    ensures q == s && r == t
  {
    var m := q - s;
    assert m * p == t - r;
    if m > 0 {
      AtLeast(m, p);
    } else if m < 0 {
      AtLeast(-m, p);
    }
  }

  /** A multiple of the modulus makes no difference. */
  lemma Shift(p: int, a: int, k: int)
    requires p > 0
    ensures Eq(p, a + k * p, a)
  {
    var b := a + k * p;
    assert b == (b / p) * p + b % p;
    assert b == (a / p + k) * p + a % p;
    Unique(p, b / p, b % p, a / p + k, a % p);
  }

  /** Two integers are the same element exactly when they differ by a multiple of the modulus. */
  lemma Quotient(p: int, a: int, b: int) returns (k: int)
    requires p > 0 && Eq(p, a, b)
    ensures a == b + k * p
  {
    k := a / p - b / p;
    assert a == (a / p) * p + a % p && b == (b / p) * p + b % p;
  }

  lemma SameEq(p: int, a: int)
    requires p > 0
    ensures Eq(p, a, a)
  {
  }

  lemma SumEq(p: int, a: int, b: int, c: int, d: int)
    requires p > 0 && Eq(p, a, b) && Eq(p, c, d)
    ensures Eq(p, a + c, b + d) && Eq(p, a - c, b - d)
  {
    hide Eq;
    var k := Quotient(p, a, b);
    var m := Quotient(p, c, d);
    Together(k, m, p);
    Shift(p, b + d, k + m);
    Shift(p, b - d, k - m);
  }

  lemma Together(k: int, m: int, p: int)
    ensures (k + m) * p == k * p + m * p && (k - m) * p == k * p - m * p
  {
  }

  lemma Expand(b: int, k: int, d: int, m: int, p: int)
    ensures (b + k * p) * (d + m * p) == b * d + (b * m + k * d + k * m * p) * p
  {
  }

  lemma ProductEq(p: int, a: int, b: int, c: int, d: int)
    requires p > 0 && Eq(p, a, b) && Eq(p, c, d)
    ensures Eq(p, a * c, b * d)
  {
    var k := Quotient(p, a, b);
    var m := Quotient(p, c, d);
    Expand(b, k, d, m, p);
    Shift(p, b * d, b * m + k * d + k * m * p);
  }

  lemma Reduced(p: int, a: int)
    requires p > 0
    ensures Canonical(p, a % p) && Eq(p, a % p, a)
    ensures Canonical(p, a) ==> a % p == a
  {
    Shift(p, a % p, a / p);
    assert a == a % p + (a / p) * p;
    if Canonical(p, a) { Unique(p, a / p, a % p, 0, a); }
  }

  function Add(p: int, a: int, b: int): int
    requires p > 0
  {
    (a + b) % p
  }

  function Power(x: int, n: nat): int { if n == 0 then 1 else x * Power(x, n - 1) }

  function Sub(p: int, a: int, b: int): int
    requires p > 0
  {
    (a - b) % p
  }

  function Mul(p: int, a: int, b: int): int
    requires p > 0
  {
    (a * b) % p
  }

  /** The remainder of a prime by a smaller number is smaller still, and not zero. */
  function Inv(p: int, a: int): (r: int)
    requires Prime(p) && 0 < a < p
    decreases a
  {
    if a == 1 then 1 else Mul(p, -(p / a), Inv(p, p % a))
  }

  lemma InvAlgebra(a: int, q: int, i: int, r: int, p: int)
    requires p == q * a + r
    ensures a * (-q * i) == r * i + (-i) * p
  {
    assert a * (-q * i) == -(q * a) * i;
    assert q * a == p - r;
    assert -(p - r) * i == r * i + (-i) * p;
  }

  lemma Remainder(p: int, a: int)
    requires Prime(p) && 1 < a < p
    ensures 0 < p % a < a && p == (p / a) * a + p % a
  {
  }

  lemma InvStep(p: int, a: int, q: int, r: int, i: int, inv: int)
    requires p > 0 && p == q * a + r && Eq(p, r * i, 1) && inv == Mul(p, -q, i)
    ensures Canonical(p, inv) && Eq(p, a * inv, 1)
  {
    Reduced(p, -q * i);
    hide Mul;
    ProductEq(p, a, a, inv, -q * i);
    InvAlgebra(a, q, i, r, p);
    Shift(p, r * i, -i);
  }

  lemma {:induction false} InvIsInverse(p: int, a: int)
    requires Prime(p) && 0 < a < p
    ensures Canonical(p, Inv(p, a)) && Eq(p, a * Inv(p, a), 1)
    decreases a
  {
    if a > 1 {
      hide Eq, Mul, Canonical;
      Remainder(p, a);
      InvIsInverse(p, p % a);
      InvStep(p, a, p / a, p % a, Inv(p, p % a), Inv(p, a));
    }
  }

  /** The inverse of a canonical element; zero has none. */
  function Inverse(p: int, a: int): (r: Option<int>)
    requires Prime(p) && Canonical(p, a)
  {
    if a == 0 then None else Some(Inv(p, a))
  }

  /** A product is zero only if a factor is. */
  lemma NoZeroDivisors(p: int, a: int, b: int)
    requires Prime(p) && Eq(p, a * b, 0)
    ensures Eq(p, a, 0) || Eq(p, b, 0)
  {
    Reduced(p, a);
    Reduced(p, 0);
    if a % p != 0 {
      InvIsInverse(p, a % p);
      CancelBy(p, a, a % p, Inv(p, a % p), b);
    }
  }

  lemma CancelBy(p: int, a: int, r: int, i: int, b: int)
    requires p > 0 && Eq(p, r, a) && Eq(p, r * i, 1) && Eq(p, a * b, 0)
    ensures Eq(p, b, 0)
  {
    ProductEq(p, r * i, 1, b, b);
    ProductEq(p, r, a, b, b);
    ProductEq(p, i, i, r * b, 0);
    assert i * (r * b) == r * i * b;
  }

  /** A nonzero factor can be cancelled. */
  lemma Cancel(p: int, a: int, b: int)
    requires Prime(p) && Eq(p, a * b, 0) && !Eq(p, a, 0)
    ensures Eq(p, b, 0)
  {
    NoZeroDivisors(p, a, b);
  }

  /** Distinct canonical elements differ by a nonzero element. */
  lemma DistinctDiffer(p: int, a: int, b: int)
    requires p > 0
    ensures Eq(p, a - b, 0) <==> Eq(p, a, b)
  {
    if Eq(p, a - b, 0) {
      SumEq(p, a - b, 0, b, b);
    } else if Eq(p, a, b) {
      SumEq(p, a, b, b, b);
    }
  }

  // The laws of a commutative ring.

  lemma SumLaws(p: int, a: int, b: int, c: int)
    requires p > 1
    ensures Add(p, a, b) == Add(p, b, a) && Add(p, Add(p, a, b), c) == Add(p, a, Add(p, b, c))
    ensures Canonical(p, a) ==> Add(p, a, 0) == a && Add(p, a, Sub(p, 0, a)) == 0 && Add(p, Sub(p, a, b), b) == a
  {
    Reduced(p, a + b);
    Reduced(p, b + c);
    Reduced(p, 0 - a);
    Reduced(p, a - b);
    Reduced(p, a);
    Reduced(p, 0);
    SumEq(p, (a + b) % p, a + b, c, c);
    SumEq(p, a, a, (b + c) % p, b + c);
    SumEq(p, a, a, (0 - a) % p, 0 - a);
    SumEq(p, (a - b) % p, a - b, b, b);
  }

  lemma Regroup(p: int, a: int, b: int, c: int, ab: int, bc: int)
    requires p > 0 && Eq(p, ab, a * b) && Eq(p, bc, b * c)
    ensures Eq(p, ab * c, a * bc)
  {
    ProductEq(p, ab, a * b, c, c);
    ProductEq(p, a, a, bc, b * c);
    assert a * b * c == a * (b * c);
  }

  lemma ProductLaws(p: int, a: int, b: int, c: int)
    requires p > 1
    ensures Mul(p, a, b) == Mul(p, b, a) && Mul(p, Mul(p, a, b), c) == Mul(p, a, Mul(p, b, c))
    ensures Canonical(p, a) ==> Mul(p, a, 1) == a
  {
    assert a * b == b * a && a * 1 == a;
    Reduced(p, a);
    ReducedProduct(p, a, b);
    ReducedProduct(p, b, c);
    Regroup(p, a, b, c, Mul(p, a, b), Mul(p, b, c));
  }

  lemma ReducedProduct(p: int, a: int, b: int)
    requires p > 0
    ensures Eq(p, Mul(p, a, b), a * b)
  {
    Reduced(p, a * b);
  }

  lemma Distributes(p: int, a: int, b: int, c: int)
    requires p > 1
    ensures Mul(p, a, Add(p, b, c)) == Add(p, Mul(p, a, b), Mul(p, a, c))
  {
    Reduced(p, b + c);
    Reduced(p, a * b);
    Reduced(p, a * c);
    ProductEq(p, a, a, (b + c) % p, b + c);
    SumEq(p, (a * b) % p, a * b, (a * c) % p, a * c);
    assert a * (b + c) == a * b + a * c;
  }
}
