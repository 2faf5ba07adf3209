/** Scalar multiplication of points, given that the points of the curve are a group. */
module Groups {
  import opened Bits
  import opened Naf

  /** The operations of a curve; points are taken up to equality, so G has one value per point. */
  datatype Curve<!G> = Curve(zero: G, gen: G, add: (G, G) -> G, dbl: G -> G, negate: G -> G, onCurve: G -> bool)

  predicate Closed<G>(c: Curve<G>, x: G, y: G) {
    c.onCurve(x) && c.onCurve(y) ==> c.onCurve(c.add(x, y)) && c.onCurve(c.negate(x)) && c.onCurve(c.dbl(x))
  }

  predicate Commutes<G(==)>(c: Curve<G>, x: G, y: G) {
    c.onCurve(x) && c.onCurve(y) ==> c.add(x, y) == c.add(y, x)
  }

  predicate Associates<G(==)>(c: Curve<G>, x: G, y: G, z: G) {
    c.onCurve(x) && c.onCurve(y) && c.onCurve(z) ==> c.add(c.add(x, y), z) == c.add(x, c.add(y, z))
  }

  /** Zero, negatives and doubling behave. */
  predicate Units<G(==)>(c: Curve<G>, x: G) {
    c.onCurve(x) ==> c.add(x, c.zero) == x && c.add(x, c.negate(x)) == c.zero && c.dbl(x) == c.add(x, x)
  }

  /** The group law on the points of the curve. */
  ghost predicate Lawful<G(!new)>(c: Curve<G>) {
    && c.onCurve(c.zero) && c.onCurve(c.gen)
    && (forall x, y :: Closed(c, x, y)) && (forall x, y :: Commutes(c, x, y))
    && (forall x, y, z :: Associates(c, x, y, z)) && (forall x :: Units(c, x))
  }

  function SubPoint<G>(c: Curve<G>, x: G, y: G): G { c.add(x, c.negate(y)) }

  /** The sum of n copies of `x`; of its negative, if n is negative. */
  function Multiple<G>(c: Curve<G>, n: int, x: G): G
    decreases if n < 0 then -n else n
  {
    if n == 0 then c.zero
    else if n > 0 then c.add(Multiple(c, n - 1, x), x)
    else SubPoint(c, Multiple(c, n + 1, x), x)
  }

  lemma {:induction false} TimesOnCurve<G(!new)>(c: Curve<G>, n: int, x: G)
    requires Lawful(c) && c.onCurve(x)
    ensures c.onCurve(Multiple(c, n, x))
    decreases if n < 0 then -n else n
  {
    if n > 0 {
      TimesOnCurve(c, n - 1, x);
      assert Closed(c, Multiple(c, n - 1, x), x);
    } else if n < 0 {
      TimesOnCurve(c, n + 1, x);
      assert Closed(c, x, x) && Closed(c, Multiple(c, n + 1, x), c.negate(x));
    }
  }

  lemma AddThenSub<G(!new)>(c: Curve<G>, y: G, x: G)
    requires Lawful(c) && c.onCurve(x) && c.onCurve(y)
    ensures c.add(SubPoint(c, y, x), x) == y && SubPoint(c, c.add(y, x), x) == y
  {
    var n := c.negate(x);
    assert Closed(c, x, y) && Closed(c, n, n);
    assert Associates(c, y, n, x) && Associates(c, y, x, n) && Commutes(c, n, x) && Units(c, x) && Units(c, y);
  }

  /** One copy more or one copy less. */
  lemma NextTimes<G(!new)>(c: Curve<G>, n: int, x: G)
    requires Lawful(c) && c.onCurve(x)
    ensures Multiple(c, n + 1, x) == c.add(Multiple(c, n, x), x)
    ensures Multiple(c, n - 1, x) == SubPoint(c, Multiple(c, n, x), x)
  {
    TimesOnCurve(c, n - 1, x);
    TimesOnCurve(c, n + 1, x);
    if n < 0 { AddThenSub(c, Multiple(c, n + 1, x), x); }
    if n > 0 { AddThenSub(c, Multiple(c, n - 1, x), x); }
  }

  lemma {:induction false} TimesSum<G(!new)>(c: Curve<G>, m: int, n: int, x: G)
    requires Lawful(c) && c.onCurve(x)
    ensures Multiple(c, m + n, x) == c.add(Multiple(c, m, x), Multiple(c, n, x))
    decreases if n < 0 then -n else n
  {
    var y := Multiple(c, m, x);
    TimesOnCurve(c, m, x);
    assert Units(c, y) && Closed(c, x, x);
    if n > 0 {
      TimesSum(c, m, n - 1, x);
      TimesOnCurve(c, n - 1, x);
      NextTimes(c, m + n - 1, x);
      assert Associates(c, y, Multiple(c, n - 1, x), x);
    } else if n < 0 {
      TimesSum(c, m, n + 1, x);
      TimesOnCurve(c, n + 1, x);
      NextTimes(c, m + n + 1, x);
      assert Associates(c, y, Multiple(c, n + 1, x), c.negate(x));
    }
  }

  lemma {:induction false} TimesProduct<G(!new)>(c: Curve<G>, m: int, n: int, x: G)
    requires Lawful(c) && c.onCurve(x)
    ensures Multiple(c, m, Multiple(c, n, x)) == Multiple(c, m * n, x)
    decreases if m < 0 then -m else m
  {
    TimesOnCurve(c, n, x);
    if m > 0 {
      TimesProduct(c, m - 1, n, x);
      TimesSum(c, (m - 1) * n, n, x);
      assert (m - 1) * n + n == m * n;
    } else if m < 0 {
      TimesProduct(c, m + 1, n, x);
      TimesDifference(c, (m + 1) * n, n, x);
      assert (m + 1) * n - n == m * n;
    } else {
      assert 0 * n == 0;
    }
  }

  lemma TimesDifference<G(!new)>(c: Curve<G>, m: int, n: int, x: G)
    requires Lawful(c) && c.onCurve(x)
    ensures Multiple(c, m - n, x) == SubPoint(c, Multiple(c, m, x), Multiple(c, n, x))
  {
    TimesOnCurve(c, m - n, x);
    TimesOnCurve(c, n, x);
    TimesSum(c, m - n, n, x);
    AddThenSub(c, Multiple(c, m - n, x), Multiple(c, n, x));
  }

  lemma {:induction false} TimesZero<G(!new)>(c: Curve<G>, n: int)
    requires Lawful(c)
    ensures Multiple(c, n, c.zero) == c.zero
    decreases if n < 0 then -n else n
  {
    assert Units(c, c.zero);
    if n > 0 {
      TimesZero(c, n - 1);
    } else if n < 0 {
      TimesZero(c, n + 1);
    }
  }

  /** The value of the digits from `i` up, as a multiple of 2 to the i. */
  function High(digits: seq<u8>, i: nat): int
    requires i <= |digits|
    decreases |digits| - i
  {
    if i == |digits| then 0 else Digit(digits[i]) + 2 * High(digits, i + 1)
  }

  lemma Shifted(power: int, d: int, h: int)
    ensures power * (d + 2 * h) == d * power + 2 * power * h
  {
    assert power * (2 * h) == 2 * power * h;
  }

  lemma {:induction false} HighAndLow(digits: seq<u8>, i: nat)
    requires i <= |digits|
    ensures Value(digits, |digits|) == Value(digits, i) + Pow2(i) * High(digits, i)
    decreases |digits| - i
  {
    hide Pow2, Digit;
    if i < |digits| {
      HighAndLow(digits, i + 1);
      Pow2Next(i);
      Shifted(Pow2(i), Digit(digits[i]), High(digits, i + 1));
    }
  }

  /** Double and add over the non-adjacent form, from the highest digit down. */
  method ScalarMul<G(==, !new)>(c: Curve<G>, x: G, scalar: u256) returns (result: G)
    requires Lawful(c) && c.onCurve(x) && scalar < MODULUS
    ensures c.onCurve(result) && result == Multiple(c, scalar as int, x)
  {
    hide Lawful, Multiple, High, Value, NonAdjacent;
    if x == c.zero {
      TimesZero(c, scalar as int);
      TimesOnCurve(c, 0, x);
      ZeroTimes(c, x);
      return c.zero;
    }
    var naf := ToNaf(scalar);
    result := c.zero;
    ghost var digits := naf.digits[..];
    var i: nat := naf.digits.Length;
    ZeroTimes(c, x);
    NoDigits(digits);
    while i > 0
      invariant i <= naf.digits.Length == |digits| && digits == naf.digits[..]
      invariant c.onCurve(result) && result == Multiple(c, High(digits, i), x)
    {
      i := i - 1;
      AddDigit(c, x, digits, i);
      result := c.dbl(result);
      if naf.digits[i] == 1 {
        result := c.add(result, x);
      } else if naf.digits[i] == 2 {
        result := SubPoint(c, result, x);
      }
    }
    AllDigits(digits);
  }

  lemma ZeroTimes<G(!new)>(c: Curve<G>, x: G)
    requires Lawful(c)
    ensures Multiple(c, 0, x) == c.zero && c.onCurve(c.zero)
  {
  }

  lemma NoDigits(digits: seq<u8>)
    ensures High(digits, |digits|) == 0
  {
  }

  lemma AllDigits(digits: seq<u8>)
    ensures High(digits, 0) == Value(digits, |digits|)
  {
    HighAndLow(digits, 0);
    assert Pow2(0) == 1;
  }

  /** One turn of the loop. */
  lemma AddDigit<G(!new)>(c: Curve<G>, x: G, digits: seq<u8>, i: nat)
    requires Lawful(c) && c.onCurve(x) && i < |digits|
    ensures var doubled := c.dbl(Multiple(c, High(digits, i + 1), x));
      var next :=
        if digits[i] == 1 then c.add(doubled, x) else if digits[i] == 2 then SubPoint(c, doubled, x) else doubled;
      c.onCurve(next) && next == Multiple(c, High(digits, i), x)
  {
    var h := High(digits, i + 1);
    TimesOnCurve(c, h, x);
    assert Units(c, Multiple(c, h, x));
    TimesSum(c, h, h, x);
    NextTimes(c, 2 * h, x);
    TimesOnCurve(c, High(digits, i), x);
  }
}
