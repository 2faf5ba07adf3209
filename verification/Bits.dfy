/** Bit operations on natural numbers. */
module Bits {
  function Pow2(n: nat): (r: nat)
    ensures r > 0
  {
    if n == 0 then 1 else 2 * Pow2(n - 1)
  }

  lemma {:induction false} Pow2Sum(a: nat, b: nat)
    ensures Pow2(a + b) == Pow2(a) * Pow2(b)
  {
    if a > 0 {
      Pow2Sum(a - 1, b);
      assert Pow2(a + b) == 2 * Pow2(a - 1 + b);
      TwiceProduct(Pow2(a - 1), Pow2(b));
    }
  }

  lemma TwiceProduct(x: nat, y: nat)
    ensures 2 * (x * y) == (2 * x) * y
  {
  }

  lemma Pow2Next(n: nat)
    ensures Pow2(n + 1) == 2 * Pow2(n) && Pow2(0) == 1
  {
  }

  function BitOr(a: nat, b: nat): nat
    decreases a + b
  {
    if a == 0 && b == 0 then 0
    else (if a % 2 == 1 || b % 2 == 1 then 1 else 0) + 2 * BitOr(a / 2, b / 2)
  }

  function BitAnd(a: nat, b: nat): nat {
    if a == 0 || b == 0 then 0
    else (if a % 2 == 1 && b % 2 == 1 then 1 else 0) + 2 * BitAnd(a / 2, b / 2)
  }

  lemma OrStep(a: nat, r: nat)
    requires a > 0 && (r % 2 == 1 ==> a % 2 == 1) && BitOr(a / 2, r / 2) == a / 2
    ensures BitOr(a, r) == a
  {
  }

  lemma {:induction false} OrZero(a: nat)
    ensures BitOr(a, 0) == a
  {
    if a > 0 {
      OrZero(a / 2);
      OrStep(a, 0);
    }
  }

  /** Setting bits that are set already changes nothing. */
  lemma {:induction false} OrLowBits(a: nat, n: nat, r: nat)
    requires r == a % Pow2(n)
    ensures BitOr(a, r) == a
  {
    hide BitOr, Pow2;
    if n == 0 || a == 0 {
      NoBits(a, n);
      OrZero(a);
    } else {
      Halves(a, n);
      OrLowBits(a / 2, n - 1, r / 2);
      OrStep(a, r);
    }
  }

  lemma NoBits(a: nat, n: nat)
    ensures n == 0 || a == 0 ==> a % Pow2(n) == 0
  {
    if n == 0 { Remainder(a, 1, a, 0); } else if a == 0 { Remainder(0, Pow2(n), 0, 0); }
  }

  lemma Halves(a: nat, n: nat)
    requires n > 0
    ensures a % Pow2(n) / 2 == (a / 2) % Pow2(n - 1) && a % Pow2(n) % 2 == a % 2
  {
    var m := Pow2(n - 1);
    var h, b := a / 2, a % 2;
    assert a == 2 * h + b && h == m * (h / m) + h % m;
    var rest := 2 * (h % m) + b;
    assert a == 2 * m * (h / m) + rest by {
      assert 2 * (m * (h / m)) == 2 * m * (h / m);
    }
    assert 0 <= rest < 2 * m;
    Remainder(a, 2 * m, h / m, rest);
  }

  lemma Multiple(m: int, d: int, e: int)
    requires m > 0 && m * d == e && -m < e < m
    ensures d == 0
  {
  }

  lemma Remainder(a: nat, m: nat, q: nat, r: nat)
    requires m > 0 && a == m * q + r && r < m
    ensures a % m == r && a / m == q
  {
    assert a == m * (a / m) + a % m;
    var s := a % m;
    Multiple(m, q - a / m, s - r);
  }

  lemma AndStep(a: nat, b: nat, r: nat)
    requires b % 2 == 1 && r % 2 == a % 2 && BitAnd(a / 2, b / 2) == r / 2 && a > 0
    ensures BitAnd(a, b) == r
  {
  }

  lemma AndNothing(a: nat, b: nat)
    requires a == 0 || b == 0
    ensures BitAnd(a, b) == 0
  {
  }

  lemma Ones(n: nat)
    requires n > 0
    ensures (Pow2(n) - 1) % 2 == 1 && (Pow2(n) - 1) / 2 == Pow2(n - 1) - 1
  {
  }

  /** Masking with n ones is the remainder by 2 to the n. */
  lemma {:induction false} AndMask(a: nat, n: nat, r: nat)
    requires r == a % Pow2(n)
    ensures BitAnd(a, Pow2(n) - 1) == r
  {
    hide BitAnd;
    if n == 0 || a == 0 {
      NoBits(a, n);
      AndNothing(a, Pow2(n) - 1);
    } else {
      hide Pow2;
      Halves(a, n);
      Ones(n);
      AndMask(a / 2, n - 1, r / 2);
      AndStep(a, Pow2(n) - 1, r);
    }
  }
}
