/** Exponentiation by squaring. */
module Powers {
  import opened Zp

  lemma {:induction false} PowerSquare(x: int, n: nat)
    ensures Power(x * x, n) == Power(x, 2 * n)
  {
    if n > 0 {
      PowerSquare(x, n - 1);
      assert x * x * Power(x, 2 * n - 2) == x * (x * Power(x, 2 * n - 2));
      assert Power(x, 2 * n) == x * Power(x, 2 * n - 1) && Power(x, 2 * n - 1) == x * Power(x, 2 * n - 2);
    }
  }

  lemma {:induction false} PowerEq(p: int, x: int, y: int, n: nat)
    requires p > 0 && Eq(p, x, y)
    ensures Eq(p, Power(x, n), Power(y, n))
  {
    if n > 0 {
      PowerEq(p, x, y, n - 1);
      ProductEq(p, x, y, Power(x, n - 1), Power(y, n - 1));
    }
  }

  /** Squaring the base halves an even exponent. */
  lemma HalveEven(p: int, base: int, exp: nat)
    requires p > 0 && exp % 2 == 0
    ensures Eq(p, Power(Mul(p, base, base), exp / 2), Power(base, exp))
  {
    PowerSquare(base, exp / 2);
    Reduced(p, base * base);
    PowerEq(p, Mul(p, base, base), base * base, exp / 2);
  }

  /** One turn of the second loop: what is still to be multiplied stays the same. */
  lemma Turn(p: int, base: int, exp: nat, acc: int)
    requires p > 0 && exp > 1
    ensures var b := Mul(p, base, base);
      var acc' := if exp / 2 % 2 == 1 then Mul(p, acc, b) else acc;
      Eq(p, acc' * Power(Mul(p, b, b), exp / 2 / 2), acc * Power(b, exp / 2))
  {
    var b, e := Mul(p, base, base), exp / 2;
    if e % 2 == 1 {
      HalveEven(p, b, e - 1);
      Reduced(p, acc * b);
      ProductEq(p, Mul(p, acc, b), acc * b, Power(Mul(p, b, b), e / 2), Power(b, e - 1));
      assert acc * b * Power(b, e - 1) == acc * (b * Power(b, e - 1));
    } else {
      HalveEven(p, b, e);
      ProductEq(p, acc, acc, Power(Mul(p, b, b), e / 2), Power(b, e));
    }
  }

  /** The power of a field element, for exponents of 64 bits. */
  method Pow(p: int, x: int, exponent: nat) returns (r: int)
    requires p > 1 && Canonical(p, x) && exponent < 0x1_0000_0000_0000_0000
    ensures r == Power(x, exponent) % p
  {
    hide Power, Mul;
    if exponent == 0 {
      NoFactor(p, x);
      return 1;
    }
    var base, exp := x, exponent;
    while exp % 2 == 0
      invariant exp > 0 && Canonical(p, base) && Eq(p, Power(base, exp), Power(x, exponent))
      decreases exp
    {
      HalveEven(p, base, exp);
      ReducedProduct(p, base, base);
      CanonicalProduct(p, base, base);
      base := Mul(p, base, base);
      exp := exp / 2;
    }
    OneFactor(base);
    if exp == 1 {
      Reduced(p, base);
      return base;
    }
    var acc := base;
    HalveEven(p, base, exp - 1);
    Peel(p, base, exp);
    ghost var total := Power(x, exponent);
    while exp > 1
      invariant exp > 0 && Canonical(p, acc)
      invariant Eq(p, acc * Power(Mul(p, base, base), exp / 2), total)
      decreases exp
    {
      Turn(p, base, exp, acc);
      exp := exp / 2;
      base := Mul(p, base, base);
      if exp % 2 == 1 {
        CanonicalProduct(p, acc, base);
        acc := Mul(p, acc, base);
      }
    }
    NoFactor(p, Mul(p, base, base));
    Reduced(p, acc);
    r := acc;
  }

  lemma NoFactor(p: int, x: int)
    requires p > 1
    ensures Power(x, 0) == 1 && 1 % p == 1
  {
    Reduced(p, 1);
  }

  lemma OneFactor(x: int)
    ensures Power(x, 1) == x
  {
    assert Power(x, 1) == x * Power(x, 0);
  }

  lemma CanonicalProduct(p: int, a: int, b: int)
    requires p > 0
    ensures Canonical(p, Mul(p, a, b))
  {
  }

  lemma Peel(p: int, base: int, exp: nat)
    requires p > 0 && exp % 2 == 1
    ensures Eq(p, base * Power(Mul(p, base, base), exp / 2), Power(base, exp))
  {
    HalveEven(p, base, exp - 1);
    ProductEq(p, base, base, Power(Mul(p, base, base), exp / 2), Power(base, exp - 1));
  }
}
