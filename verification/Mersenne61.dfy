/** Arithmetic modulo 2^61 - 1 in machine integers. Every operation is checked to stay in range. */
module Mersenne61 {
  import opened Wrappers
  import Zp
  import opened Bits

  newtype u64 = x: int | 0 <= x < 0x1_0000_0000_0000_0000
  newtype u128 = x: int | 0 <= x < 0x1_0000_0000_0000_0000_0000_0000_0000_0000
  newtype i64 = x: int | -0x8000_0000_0000_0000 <= x < 0x8000_0000_0000_0000

  const MODULUS: u64 := 0x1FFF_FFFF_FFFF_FFFF
  const BIT_SIZE: nat := 61
  const P: int := 0x1FFF_FFFF_FFFF_FFFF

  datatype FieldError = ZeroInverse

  /** An element; canonical when it is below the modulus. */
  datatype Element = Element(value: u64)

  predicate Canonical(e: Element) { e.value < MODULUS }

  const ZERO := Element(0)
  const ONE := Element(1)

  /** Reduces by repeated subtraction. */
  method From(value: u64) returns (e: Element)
    ensures Canonical(e) && e.value as int == value as int % P
  {
    var final := value;
    while final >= MODULUS
      invariant final as int % P == value as int % P
      decreases final
    {
      Zp.Shift(P, final as int, -1);
      final := final - MODULUS;
    }
    Zp.Reduced(P, final as int);
    e := Element(final);
  }

  method Add(a: Element, b: Element) returns (r: Element)
    requires Canonical(a) && Canonical(b)
    ensures Canonical(r) && r.value as int == Zp.Add(P, a.value as int, b.value as int)
  {
    r := From(a.value + b.value);
  }

  method Sub(a: Element, b: Element) returns (r: Element)
    requires Canonical(a) && Canonical(b)
    ensures Canonical(r) && r.value as int == Zp.Sub(P, a.value as int, b.value as int)
  {
    if b.value > a.value {
      Zp.Shift(P, a.value as int - b.value as int, 1);
      r := From(a.value + MODULUS - b.value);
    } else {
      r := From(a.value - b.value);
    }
  }

  method Negate(a: Element) returns (r: Element)
    requires Canonical(a)
    ensures Canonical(r) && r.value as int == Zp.Sub(P, 0, a.value as int)
  {
    if a != ZERO {
      Zp.Shift(P, 0 - a.value as int, 1);
      r := From(MODULUS - a.value);
    } else {
      Zp.Reduced(P, 0);
      r := ZERO;
    }
  }

  /** Splits the product at bit 61 and adds the halves. */
  method Mul(a: Element, b: Element) returns (r: Element)
    requires Canonical(a) && Canonical(b)
    ensures Canonical(r) && r.value as int == Zp.Mul(P, a.value as int, b.value as int)
  {
    ProductBound(a.value as int, b.value as int);
    var product: u128 := a.value as u128 * b.value as u128;
    SplitProduct(product as int);
    var mostSigBits: u64 := (product as int / 0x2000_0000_0000_0000) as u64;
    var leastSigBits: u64 := (product as int % 0x1_0000_0000_0000_0000) as u64;
    mostSigBits := BitOr(mostSigBits as int, leastSigBits as int / 0x2000_0000_0000_0000) as u64;
    leastSigBits := BitAnd(leastSigBits as int, MODULUS as int) as u64;
    var high := From(mostSigBits);
    var low := From(leastSigBits);
    HalvesAdd(product as int, mostSigBits as int, leastSigBits as int);
    r := Add(high, low);
  }

  lemma Bound(a: int, b: int, m: int)
    requires 0 <= a <= m && 0 <= b <= m
    ensures 0 <= a * b <= m * m
  {
    assert a * b <= a * m && a * m <= m * m;
  }

  lemma ProductBound(a: int, b: int)
    requires 0 <= a < P && 0 <= b < P
    ensures 0 <= a * b <= (P - 1) * (P - 1)
  {
    Bound(a, b, P - 1);
  }

  /** The bits that the two halves share are the same in both. */
  lemma SplitProduct(n: int)
    requires 0 <= n <= (P - 1) * (P - 1)
    ensures 0 <= n / 0x2000_0000_0000_0000 < 0x2000_0000_0000_0000
    ensures var high, low := n / 0x2000_0000_0000_0000, n % 0x1_0000_0000_0000_0000;
      && BitOr(high, low / 0x2000_0000_0000_0000) == high
      && BitAnd(low, P) == n % 0x2000_0000_0000_0000
  {
    var high, low := n / 0x2000_0000_0000_0000, n % 0x1_0000_0000_0000_0000;
    assert Pow2(3) == 8;
    assert low / 0x2000_0000_0000_0000 == high % 8;
    OrLowBits(high, 3, low / 0x2000_0000_0000_0000);
    Pow2Of61();
    AndMask(low, 61, low % Pow2(61));
    assert low % 0x2000_0000_0000_0000 == n % 0x2000_0000_0000_0000;
  }

  lemma SmallPowers()
    ensures Pow2(5) == 32 && Pow2(1) == 2
  {
  }

  lemma Pow2Of61()
    ensures Pow2(61) == 0x2000_0000_0000_0000
  {
    hide Pow2;
    SmallPowers();
    Pow2Sum(5, 5);
    Pow2Sum(10, 10);
    Pow2Sum(20, 20);
    Pow2Sum(40, 20);
    Pow2Sum(60, 1);
  }

  lemma HalvesAdd(n: int, high: int, low: int)
    requires 0 <= n && high == n / 0x2000_0000_0000_0000 && low == n % 0x2000_0000_0000_0000
    ensures Zp.Add(P, high % P, low % P) == n % P
  {
    Zp.Reduced(P, high);
    Zp.Reduced(P, low);
    Zp.SumEq(P, high % P, high, low % P, low);
    assert n == high + low + high * P;
    Zp.Shift(P, high + low, high);
  }

  /** The multiplicative exchange: v1 takes v2, and v2 takes v1 - q * v2. */
  method Assign(v1: i64, v2: i64, q: i64) returns (w1: i64, w2: i64)
    requires -P <= q as int * v2 as int <= P && -P <= v1 as int <= P
    ensures w1 == v2 && w2 as int == v1 as int - q as int * v2 as int
  {
    var temp := v2;
    w2 := v1 - q * temp;
    w1 := temp;
  }

  /**
   * What the loop of the extended Euclidean algorithm keeps: the coefficients have opposite signs,
   * and weighed with the other remainder their sizes add up to the modulus.
   */
  predicate Balanced(k: int, newK: int, r: int, newR: int) {
    && 0 <= newR < r
    && ((k <= 0 < newK && newK * r - k * newR == P) || (newK < 0 <= k && k * newR - newK * r == P))
  }

  lemma Scaled(m: int, n: int)
    requires n >= 1
    ensures m >= 0 ==> m * n >= m
    ensures m <= 0 ==> m * n <= m
  {
  }

  lemma NextProduct(k: int, newK: int, r: int, newR: int, q: int, rest: int)
    requires r == q * newR + rest
    ensures (k - q * newK) * newR == k * newR - newK * r + newK * rest
  {
    assert q * newK * newR == newK * (q * newR);
    assert newK * r == newK * (q * newR) + newK * rest;
  }

  /** No product or difference of a step leaves the modulus in absolute value. */
  lemma StepStaysSmall(k: int, newK: int, r: int, newR: int, q: int, rest: int)
    requires Balanced(k, newK, r, newR) && newR > 0 && r == q * newR + rest && 0 <= rest < newR && q >= 0
    ensures -P <= q * newK <= P && -P <= k - q * newK <= P && -P <= q * newR <= P && -P < newK < P
    ensures r <= P && newR <= P
    ensures Balanced(newK, k - q * newK, newR, rest)
  {
    var next := k - q * newK;
    NextProduct(k, newK, r, newR, q, rest);
    Scaled(next, newR);
    Scaled(newK, r);
    Scaled(q, newR);
    SignOf(q, newK);
    SignOf(newK, rest);
    SignOf(k, newR);
    Twice(newK, r);
    if newK > 0 { Scaled(r, newK); } else { Scaled(r, -newK); }
  }

  lemma SignOf(a: int, b: int)
    ensures (a >= 0 && b >= 0) || (a <= 0 && b <= 0) ==> a * b >= 0
    ensures (a >= 0 && b <= 0) || (a <= 0 && b >= 0) ==> a * b <= 0
  {
  }

  lemma Twice(m: int, n: int)
    requires n >= 2
    ensures m >= 0 ==> m * n >= 2 * m
    ensures m <= 0 ==> m * n <= 2 * m
  {
  }

  /** At the end the last remainder divides the modulus, so it is one. */
  lemma LastRemainder(k: int, newK: int, r: int)
    requires Zp.Prime(P) && Balanced(k, newK, r, 0) && r < P
    ensures r == 1
  {
    var m := if newK > 0 then newK else -newK;
    assert m * r == P;
    if r > 1 {
      assert P == m * r + 0;
      Zp.Unique(r, P / r, P % r, m, 0);
    }
  }

  /** The coefficients express the remainders in terms of the element and the modulus. */
  lemma CombinationStep(a: int, k: int, j: int, newK: int, newJ: int, r: int, newR: int, q: int)
    requires r == k * a + j * P && newR == newK * a + newJ * P
    ensures r - q * newR == (k - q * newK) * a + (j - q * newJ) * P
  {
    assert q * newR == q * (newK * a) + q * (newJ * P);
    assert q * (newK * a) == q * newK * a && q * (newJ * P) == q * newJ * P;
  }

  /** The state of the extended Euclidean algorithm for `n`; `j` and `newJ` are the modulus's coefficients. */
  predicate Euclid(n: int, k: int, j: int, newK: int, newJ: int, r: int, newR: int) {
    && Balanced(k, newK, r, newR)
    && -P < k < P && -P <= newK <= P && r <= P && (newR == n || r <= n)
    && r == k * n + j * P && newR == newK * n + newJ * P
  }

  lemma EuclidStep(n: int, k: int, j: int, newK: int, newJ: int, r: int, newR: int)
    requires Euclid(n, k, j, newK, newJ, r, newR) && newR > 0 && n < P
    ensures var q := r / newR;
      && Euclid(n, newK, newJ, k - q * newK, j - q * newJ, newR, r - q * newR)
      && 0 <= r - q * newR < newR && 0 <= q <= P && -P < k < P && 0 < r <= P
      && -P <= q * newK <= P && -P <= q * newR <= P
  {
    hide Balanced;
    var q, rest := r / newR, r % newR;
    BalancedRange(k, newK, r, newR);
    QuotientAndRest(r, newR);
    StepStaysSmall(k, newK, r, newR, q, rest);
    CombinationStep(n, k, j, newK, newJ, r, newR, q);
    QuotientSmall(q, newR, r);
  }

  lemma BalancedRange(k: int, newK: int, r: int, newR: int)
    requires Balanced(k, newK, r, newR)
    ensures 0 <= newR < r
  {
  }

  lemma QuotientAndRest(r: int, m: int)
    requires r >= 0 && m > 0
    ensures r == (r / m) * m + r % m && r / m >= 0
  {
  }

  lemma QuotientSmall(q: int, m: int, r: int)
    requires q >= 0 && m >= 1 && q * m <= r
    ensures q <= r
  {
    Scaled(q, m);
  }

  /** The inverse by the extended Euclidean algorithm. */
  method Inverse(a: Element) returns (inverse: Result<Element, FieldError>)
    requires Canonical(a) && Zp.Prime(P)
    ensures inverse.Err? <==> a == ZERO
    ensures inverse.Ok? ==> Canonical(inverse.value) && (inverse.value.value as int * a.value as int) % P == 1
  {
    if a == ZERO { return Err(ZeroInverse); }
    var k: i64, newK: i64 := 0, 1;
    var r: i64, newR: i64 := MODULUS as i64, a.value as i64;
    ghost var j, newJ := 1, 0;
    ghost var n := a.value as int;
    hide Zp.Prime, Balanced;
    EuclidStart(n);
    while newR != 0
      invariant Euclid(n, k as int, j, newK as int, newJ, r as int, newR as int)
      invariant newR >= 0 && r > newR
      decreases newR as int
    {
      var q := r / newR;
      EuclidStep(n, k as int, j, newK as int, newJ, r as int, newR as int);
      hide Euclid;
      k, newK := Assign(k, newK, q);
      j, newJ := newJ, j - q as int * newJ;
      r, newR := Assign(r, newR, q);
    }
    LastRemainder(k as int, newK as int, r as int);
    InverseFound(n, k as int, j);
    if k < 0 { k := k + MODULUS as i64; }
    var e := From(k as u64);
    inverse := Ok(e);
  }

  lemma EuclidStart(n: int)
    requires 0 < n < P
    ensures Euclid(n, 0, 1, 1, 0, P, n)
  {
  }

  lemma InverseFound(n: int, k: int, j: int)
    requires 1 == k * n + j * P
    ensures (k % P * n) % P == 1 && ((k + P) % P * n) % P == 1
  {
    Zp.Shift(P, 1, -j);
    Zp.Shift(P, k, 1);
    Zp.Reduced(P, k);
    Zp.Reduced(P, 1);
    Zp.ProductEq(P, k % P, k, n, n);
    assert k * n == 1 + (-j) * P;
  }

  /** The `/` operator: it inverts the left operand and multiplies by the right one. */
  method Div(a: Element, b: Element) returns (r: Result<Element, FieldError>)
    requires Canonical(a) && Canonical(b) && Zp.Prime(P)
    ensures Divided(a, b, r)
  {
    var inverse := Inverse(a);
    if inverse.Err? { return Err(inverse.error); }
    var product := Mul(b, inverse.value);
    DivisionValue(a.value as int, b.value as int, inverse.value.value as int);
    r := Ok(product);
  }

  /** What `/` gives: an error if `a` is zero, and otherwise b / a. */
  predicate Divided(a: Element, b: Element, r: Result<Element, FieldError>) {
    && (r.Err? <==> a == ZERO)
    && (r.Ok? ==> Canonical(r.value) && (r.value.value as int * a.value as int) % P == b.value as int)
  }

  lemma DivisionValue(a: int, b: int, i: int)
    requires 0 <= b < P && (i * a) % P == 1
    ensures (Zp.Mul(P, b, i) * a) % P == b
  {
    Zp.Reduced(P, b * i);
    Zp.Reduced(P, b);
    Zp.Reduced(P, 1);
    Zp.ProductEq(P, (b * i) % P, b * i, a, a);
    Zp.ProductEq(P, b, b, i * a, 1);
    assert b * i * a == b * (i * a);
  }

  /**
   * The law (a / b) * b = a that division obeys in the other fields: here it holds exactly when `a` is
   * not zero and is `b` or its negative.
   */
  lemma DivisionLaw(a: Element, b: Element, r: Result<Element, FieldError>)
    requires Canonical(a) && Canonical(b) && Zp.Prime(P) && Divided(a, b, r)
    ensures (r.Ok? && (r.value.value as int * b.value as int) % P == a.value as int)
      <==> (a != ZERO && (a == b || a.value as int + b.value as int == P))
  {
    if a != ZERO {
      SquaresDecide(a.value as int, b.value as int, r.value.value as int);
    }
  }

  /** One divided by two comes out as two, and two times two is not one. */
  lemma DivisionCanBeWrong(r: Result<Element, FieldError>)
    requires Divided(Element(1), Element(2), r)
    ensures r == Ok(Element(2)) && (r.value.value as int * 2) % P != 1
  {
  }

  lemma SquaresDecide(a: int, b: int, v: int)
    requires Zp.Prime(P) && 0 < a < P && 0 <= b < P && (v * a) % P == b
    ensures (v * b) % P == a <==> a == b || a + b == P
  {
    Zp.Reduced(P, a);
    Zp.Reduced(P, b);
    Zp.Reduced(P, 0);
    assert !Zp.Eq(P, a, 0);
    assert Zp.Eq(P, v * a, b);
    VTimes(a, b, v);
    assert (v * b) % P == a <==> Zp.Eq(P, v * b, a);
    SumOrDifference(a, b);
    hide Zp.Eq;
    if Zp.Eq(P, (b - a) * (b + a), 0) { Zp.NoZeroDivisors(P, b - a, b + a); }
    if Zp.Eq(P, b - a, 0) { Zp.ProductEq(P, b - a, 0, b + a, b + a); }
    if Zp.Eq(P, b + a, 0) { Zp.ProductEq(P, b - a, b - a, b + a, 0); }
  }

  lemma SumOrDifference(a: int, b: int)
    requires 0 < a < P && 0 <= b < P
    ensures Zp.Eq(P, b - a, 0) <==> a == b
    ensures Zp.Eq(P, b + a, 0) <==> a + b == P
  {
    Zp.DistinctDiffer(P, b, a);
    Zp.Reduced(P, a);
    Zp.Reduced(P, b);
    Zp.Reduced(P, 0);
    if a + b >= P {
      Zp.Shift(P, a + b, -1);
      Zp.Reduced(P, a + b - P);
    } else {
      Zp.Reduced(P, a + b);
    }
  }

  /** v b = a, times a, says that the squares are equal. */
  lemma VTimes(a: int, b: int, v: int)
    requires Zp.Prime(P) && Zp.Eq(P, v * a, b) && !Zp.Eq(P, a, 0)
    ensures Zp.Eq(P, v * b, a) <==> Zp.Eq(P, (b - a) * (b + a), 0)
  {
    hide Zp.Eq, Zp.Prime;
    var e := v * b - a;
    Zp.SameEq(P, b);
    Zp.SameEq(P, a);
    Zp.SameEq(P, a * a);
    Zp.ProductEq(P, v * a, b, b, b);
    Zp.SumEq(P, v * a * b, b * b, a * a, a * a);
    assert a * e == v * a * b - a * a by { assert a * (v * b) == v * a * b; }
    assert (b - a) * (b + a) == b * b - a * a;
    assert Zp.Eq(P, a * e, (b - a) * (b + a));
    Zp.DistinctDiffer(P, v * b, a);
    Trans(a * e, (b - a) * (b + a));
    if Zp.Eq(P, a * e, 0) { Zp.Cancel(P, a, e); }
    if Zp.Eq(P, e, 0) { Zp.ProductEq(P, a, a, e, 0); }
  }

  lemma Trans(x: int, y: int)
    requires Zp.Eq(P, x, y)
    ensures Zp.Eq(P, x, 0) <==> Zp.Eq(P, y, 0)
  {
  }

  /** The loop of `random` stops at the i-th draw. */
  ghost predicate FirstAccepted(stream: nat -> u64, i: nat) {
    stream(i) <= MODULUS && forall j: nat :: j < i ==> stream(j) > MODULUS
  }

  /** The loop of `random_non_zero` stops at the i-th draw. */
  ghost predicate FirstNonZero(stream: nat -> u64, i: nat) {
    0 < stream(i) <= MODULUS && forall j: nat :: j < i ==> stream(j) == 0 || stream(j) > MODULUS
  }

  /** Draws until a value not above the modulus; `last` is a draw at which it has stopped. */
  method Random(stream: nat -> u64, ghost last: nat) returns (r: Element, drawn: nat)
    requires stream(last) <= MODULUS
    ensures drawn > 0 && FirstAccepted(stream, drawn - 1)
    ensures Canonical(r) && r.value as int == stream(drawn - 1) as int % P
  {
    var value := stream(0);
    drawn := 1;
    while value > MODULUS
      invariant drawn > 0 && drawn - 1 <= last && value == stream(drawn - 1)
      invariant forall j: nat :: j < drawn - 1 ==> stream(j) > MODULUS
      decreases last - drawn
    {
      value := stream(drawn);
      drawn := drawn + 1;
    }
    r := From(value);
  }

  /** Draws until a value that is neither zero nor above the modulus. */
  method RandomNonZero(stream: nat -> u64, ghost last: nat) returns (r: Element, drawn: nat)
    requires 0 < stream(last) <= MODULUS
    ensures drawn > 0 && FirstNonZero(stream, drawn - 1)
    ensures Canonical(r) && r.value as int == stream(drawn - 1) as int % P
    ensures r == ZERO <==> stream(drawn - 1) == MODULUS
  {
    var value := stream(0);
    drawn := 1;
    while value == 0 || value > MODULUS
      invariant drawn > 0 && drawn - 1 <= last && value == stream(drawn - 1)
      invariant forall j: nat :: j < drawn - 1 ==> stream(j) == 0 || stream(j) > MODULUS
      decreases last - drawn
    {
      value := stream(drawn);
      drawn := drawn + 1;
    }
    Zp.Shift(P, 0, 1);
    Zp.Reduced(P, 0);
    if value != MODULUS { Zp.Reduced(P, value as int); }
    r := From(value);
  }

  /** A generator that draws the modulus makes `random_non_zero` return zero. */
  lemma NonZeroCanBeZero()
    ensures exists stream: nat -> u64 :: FirstNonZero(stream, 0) && stream(0) as int % P == 0
  {
    var stream: nat -> u64 := (_: nat) => MODULUS;
    Zp.Shift(P, 0, 1);
    Zp.Reduced(P, 0);
    assert FirstNonZero(stream, 0) && stream(0) as int % P == 0;
  }
}
