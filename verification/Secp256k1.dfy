/**
 * Points of secp256k1 in projective coordinates: the complete addition formulas, step by step as the
 * program computes them, and what they come to. Coordinates are elements of the field modulo `p`.
 */
module Secp256k1 {
  import opened Wrappers
  import opened Zp

  datatype Point = Point(x: int, y: int, z: int)

  predicate CanonicalPoint(p: int, a: Point) {
    Canonical(p, a.x) && Canonical(p, a.y) && Canonical(p, a.z)
  }

  const POINT_AT_INFINITY := Point(0, 1, 0)

  /** Y^2 Z = X^3 + 7 Z^3. */
  predicate OnCurve(p: int, a: Point)
    requires p > 0
  {
    Eq(p, a.y * a.y * a.z, a.x * a.x * a.x + 7 * (a.z * a.z * a.z))
  }

  // The sum of two points, as polynomials in their coordinates.

  function SumX(a: Point, b: Point): int {
    (a.x * b.y + b.x * a.y) * (a.y * b.y - 21 * (a.z * b.z)) - 21 * (a.y * b.z + b.y * a.z) * (a.x * b.z + b.x * a.z)
  }

  function SumY(a: Point, b: Point): int {
    (a.y * b.y - 21 * (a.z * b.z)) * (a.y * b.y + 21 * (a.z * b.z)) + 63 * (a.x * b.x) * (a.x * b.z + b.x * a.z)
  }

  function SumZ(a: Point, b: Point): int {
    (a.y * b.y + 21 * (a.z * b.z)) * (a.y * b.z + b.y * a.z) + 3 * (a.x * b.x) * (a.x * b.y + b.x * a.y)
  }

  // The double of a point.

  function DoubleX(a: Point): int { 2 * ((a.y * a.y - 63 * (a.z * a.z)) * (a.x * a.y)) }

  function DoubleY(a: Point): int {
    168 * (a.y * a.y) * (a.z * a.z) + (a.y * a.y - 63 * (a.z * a.z)) * (a.y * a.y + 21 * (a.z * a.z))
  }

  function DoubleZ(a: Point): int { 8 * (a.y * a.y) * (a.y * a.z) }

  // Steps of the formulas: reduced results stand for the results on unreduced operands.

  lemma SumStands(p: int, a: int, u: int, b: int, v: int)
    requires p > 0 && Eq(p, a, u) && Eq(p, b, v)
    ensures Eq(p, Add(p, a, b), u + v) && Canonical(p, Add(p, a, b))
  {
    SumEq(p, a, u, b, v);
    Reduced(p, a + b);
  }

  lemma DifferenceStands(p: int, a: int, u: int, b: int, v: int)
    requires p > 0 && Eq(p, a, u) && Eq(p, b, v)
    ensures Eq(p, Sub(p, a, b), u - v) && Canonical(p, Sub(p, a, b))
  {
    SumEq(p, a, u, b, v);
    Reduced(p, a - b);
  }

  lemma ProductStands(p: int, a: int, u: int, b: int, v: int)
    requires p > 0 && Eq(p, a, u) && Eq(p, b, v)
    ensures Eq(p, Mul(p, a, b), u * v) && Canonical(p, Mul(p, a, b))
  {
    ProductEq(p, a, u, b, v);
    Reduced(p, a * b);
  }

  /** The doubling formula. */
  method Dbl(p: int, a: Point) returns (r: Point)
    requires p > 1
    ensures CanonicalPoint(p, r)
    ensures Eq(p, r.x, DoubleX(a)) && Eq(p, r.y, DoubleY(a)) && Eq(p, r.z, DoubleZ(a))
  {
    hide Eq, Add, Sub, Mul, Canonical;
    var x, y, z := a.x, a.y, a.z;
    SameEq(p, x);
    SameEq(p, y);
    SameEq(p, z);
    var b3 := 21 % p;
    ReducedConst(p);

    var t0 := Mul(p, y, y);
    ProductStands(p, y, y, y, y);
    var z3 := Add(p, t0, t0);
    SumStands(p, t0, y * y, t0, y * y);
    ghost var u := 2 * (y * y);
    z3 := Add(p, z3, z3);
    SumStands(p, Add(p, t0, t0), u, Add(p, t0, t0), u);
    ghost var z4 := z3;
    z3 := Add(p, z3, z3);
    SumStands(p, z4, 4 * (y * y), z4, 4 * (y * y));
    var t1 := Mul(p, y, z);
    ProductStands(p, y, y, z, z);
    var t2 := Mul(p, z, z);
    ProductStands(p, z, z, z, z);
    ProductStands(p, b3, 21, t2, z * z);
    t2 := Mul(p, b3, t2);
    var x3 := Mul(p, t2, z3);
    ProductStands(p, t2, 21 * (z * z), z3, 8 * (y * y));
    var y3 := Add(p, t0, t2);
    SumStands(p, t0, y * y, t2, 21 * (z * z));
    ProductStands(p, t1, y * z, z3, 8 * (y * y));
    z3 := Mul(p, t1, z3);
    t1 := Add(p, t2, t2);
    SumStands(p, t2, 21 * (z * z), t2, 21 * (z * z));
    SumStands(p, t1, 42 * (z * z), t2, 21 * (z * z));
    t2 := Add(p, t1, t2);
    DifferenceStands(p, t0, y * y, t2, 63 * (z * z));
    t0 := Sub(p, t0, t2);
    ProductStands(p, t0, y * y - 63 * (z * z), y3, y * y + 21 * (z * z));
    y3 := Mul(p, t0, y3);
    SumStands(p, x3, 21 * (z * z) * (8 * (y * y)), y3, (y * y - 63 * (z * z)) * (y * y + 21 * (z * z)));
    y3 := Add(p, x3, y3);
    t1 := Mul(p, x, y);
    ProductStands(p, x, x, y, y);
    x3 := Mul(p, t0, t1);
    ProductStands(p, t0, y * y - 63 * (z * z), t1, x * y);
    ghost var half := (y * y - 63 * (z * z)) * (x * y);
    SumStands(p, x3, half, x3, half);
    x3 := Add(p, x3, x3);
    DoubleForms(y * y, z * z, y * z);
    r := Point(x3, y3, z3);
  }

  lemma ReducedConst(p: int)
    requires p > 0
    ensures Eq(p, 21 % p, 21)
  {
    Reduced(p, 21);
  }

  lemma DoubleForms(yy: int, zz: int, yz: int)
    ensures 21 * zz * (8 * yy) == 168 * yy * zz
    ensures yz * (8 * yy) == 8 * yy * yz
  {
  }

  /** The addition formula. */
  method Sum(p: int, a: Point, b: Point) returns (r: Point)
    requires p > 1
    ensures CanonicalPoint(p, r)
    ensures Eq(p, r.x, SumX(a, b)) && Eq(p, r.y, SumY(a, b)) && Eq(p, r.z, SumZ(a, b))
  {
    hide Eq, Add, Sub, Mul, Canonical;
    var (x1, y1, z1) := (a.x, a.y, a.z);
    var (x2, y2, z2) := (b.x, b.y, b.z);
    var b3 := 21 % p;
    ReducedConst(p);

    ghost var xx, yy, zz := x1 * x2, y1 * y2, z1 * z2;
    var t0, t1, t2 := Mul(p, x1, x2), Mul(p, y1, y2), Mul(p, z1, z2);
    PlainProduct(p, x1, x2);
    PlainProduct(p, y1, y2);
    PlainProduct(p, z1, z2);

    var t3 := CrossTerm(p, x1, y1, x2, y2, t0, t1);
    var t4 := CrossTerm(p, y1, z1, y2, z2, t1, t2);
    var y3 := CrossTerm(p, x1, z1, x2, z2, t0, t2);
    ghost var xy, yz, xz := x1 * y2 + x2 * y1, y1 * z2 + y2 * z1, x1 * z2 + x2 * z1;

    var x3 := Add(p, t0, t0);
    SumStands(p, t0, xx, t0, xx);
    SumStands(p, x3, 2 * xx, t0, xx);
    t0 := Add(p, x3, t0);
    ProductStands(p, b3, 21, t2, zz);
    t2 := Mul(p, b3, t2);

    var z3 := Add(p, t1, t2);
    SumStands(p, t1, yy, t2, 21 * zz);
    DifferenceStands(p, t1, yy, t2, 21 * zz);
    t1 := Sub(p, t1, t2);
    ProductStands(p, b3, 21, y3, xz);
    y3 := Mul(p, b3, y3);

    x3 := Mul(p, t4, y3);
    ProductStands(p, t4, yz, y3, 21 * xz);
    t2 := Mul(p, t3, t1);
    ProductStands(p, t3, xy, t1, yy - 21 * zz);
    DifferenceStands(p, t2, xy * (yy - 21 * zz), x3, yz * (21 * xz));
    x3 := Sub(p, t2, x3);

    ProductStands(p, y3, 21 * xz, t0, 3 * xx);
    y3 := Mul(p, y3, t0);
    ProductStands(p, t1, yy - 21 * zz, z3, yy + 21 * zz);
    t1 := Mul(p, t1, z3);
    SumStands(p, t1, (yy - 21 * zz) * (yy + 21 * zz), y3, 21 * xz * (3 * xx));
    y3 := Add(p, t1, y3);

    ProductStands(p, t0, 3 * xx, t3, xy);
    t0 := Mul(p, t0, t3);
    ProductStands(p, z3, yy + 21 * zz, t4, yz);
    z3 := Mul(p, z3, t4);
    SumStands(p, z3, (yy + 21 * zz) * yz, t0, 3 * xx * xy);
    z3 := Add(p, z3, t0);
    SumForms(xx, xy, yz, xz);
    r := Point(x3, y3, z3);
  }

  lemma SumForms(xx: int, xy: int, yz: int, xz: int)
    ensures yz * (21 * xz) == 21 * yz * xz
    ensures 21 * xz * (3 * xx) == 63 * xx * xz
  {
  }

  lemma PlainProduct(p: int, a: int, b: int)
    requires p > 0
    ensures Eq(p, Mul(p, a, b), a * b)
  {
    Reduced(p, a * b);
  }

  /** (u1 + v1) (u2 + v2) less u1 u2 + v1 v2: the three places of the formula that do this are alike. */
  method CrossTerm(p: int, u1: int, v1: int, u2: int, v2: int, uu: int, vv: int) returns (r: int)
    requires p > 1 && Eq(p, uu, u1 * u2) && Eq(p, vv, v1 * v2)
    ensures Eq(p, r, u1 * v2 + u2 * v1) && Canonical(p, r)
  {
    hide Eq, Add, Sub, Mul, Canonical;
    var s1 := Add(p, u1, v1);
    var s2 := Add(p, u2, v2);
    SameEq(p, u1);
    SameEq(p, v1);
    SameEq(p, u2);
    SameEq(p, v2);
    SumStands(p, u1, u1, v1, v1);
    SumStands(p, u2, u2, v2, v2);
    var product := Mul(p, s1, s2);
    ProductStands(p, s1, u1 + v1, s2, u2 + v2);
    var both := Add(p, uu, vv);
    SumStands(p, uu, u1 * u2, vv, v1 * v2);
    r := Sub(p, product, both);
    DifferenceStands(p, product, (u1 + v1) * (u2 + v2), both, u1 * u2 + v1 * v2);
    assert (u1 + v1) * (u2 + v2) - (u1 * u2 + v1 * v2) == u1 * v2 + u2 * v1;
  }

  /** A term that the three sums share, with congruent second operands. */
  lemma CrossAlike(p: int, u: int, v: int, b1: int, b2: int, c1: int, c2: int)
    requires p > 0 && Eq(p, b1, c1) && Eq(p, b2, c2)
    ensures Eq(p, u * b1 + b2 * v, u * c1 + c2 * v)
  {
    hide Eq;
    SameEq(p, u);
    SameEq(p, v);
    ProductEq(p, u, u, b1, c1);
    ProductEq(p, b2, c2, v, v);
    SumEq(p, u * b1, u * c1, b2 * v, c2 * v);
  }

  lemma ProductsAlike(p: int, u: int, v: int, u': int, v': int, w: int, x: int, w': int, x': int)
    requires p > 0 && Eq(p, u, u') && Eq(p, v, v') && Eq(p, w, w') && Eq(p, x, x')
    ensures Eq(p, u * v + w * x, u' * v' + w' * x') && Eq(p, u * v - w * x, u' * v' - w' * x')
  {
    hide Eq;
    ProductEq(p, u, u', v, v');
    ProductEq(p, w, w', x, x');
    SumEq(p, u * v, u' * v', w * x, w' * x');
  }

  /** Points with congruent coordinates have congruent sums with any point. */
  lemma SumsAlike(p: int, a: Point, b: Point, c: Point)
    requires p > 0 && Eq(p, b.x, c.x) && Eq(p, b.y, c.y) && Eq(p, b.z, c.z)
    ensures Eq(p, SumX(a, b), SumX(a, c)) && Eq(p, SumY(a, b), SumY(a, c)) && Eq(p, SumZ(a, b), SumZ(a, c))
  {
    hide Eq;
    CrossAlike(p, a.x, a.y, b.y, b.x, c.y, c.x);
    CrossAlike(p, a.y, a.z, b.z, b.y, c.z, c.y);
    CrossAlike(p, a.x, a.z, b.z, b.x, c.z, c.x);
    SameEq(p, a.y);
    SameEq(p, 21 * a.z);
    ProductsAlike(p, a.y, b.y, a.y, c.y, 21 * a.z, b.z, 21 * a.z, c.z);
    assert 21 * a.z * b.z == 21 * (a.z * b.z) && 21 * a.z * c.z == 21 * (a.z * c.z);
    SameEq(p, 21);
    ProductEq(p, 21, 21, a.y * b.z + b.y * a.z, a.y * c.z + c.y * a.z);
    SameEq(p, 3 * a.x);
    ProductEq(p, 3 * a.x, 3 * a.x, b.x, c.x);
    assert 3 * a.x * b.x == 3 * (a.x * b.x) && 3 * a.x * c.x == 3 * (a.x * c.x);
    ProductsAlike(p, a.x * b.y + b.x * a.y, a.y * b.y - 21 * (a.z * b.z), a.x * c.y + c.x * a.y,
      a.y * c.y - 21 * (a.z * c.z),
      21 * (a.y * b.z + b.y * a.z), a.x * b.z + b.x * a.z, 21 * (a.y * c.z + c.y * a.z), a.x * c.z + c.x * a.z);
    SameEq(p, 63);
    ProductEq(p, 63, 63, a.x * b.x, a.x * c.x) by { SameEq(p, a.x); ProductEq(p, a.x, a.x, b.x, c.x); }
    ProductsAlike(p, a.y * b.y - 21 * (a.z * b.z), a.y * b.y + 21 * (a.z * b.z), a.y * c.y - 21 * (a.z * c.z),
      a.y * c.y + 21 * (a.z * c.z),
      63 * (a.x * b.x), a.x * b.z + b.x * a.z, 63 * (a.x * c.x), a.x * c.z + c.x * a.z);
    ProductsAlike(p, a.y * b.y + 21 * (a.z * b.z), a.y * b.z + b.y * a.z, a.y * c.y + 21 * (a.z * c.z),
      a.y * c.z + c.y * a.z,
      3 * (a.x * b.x), a.x * b.y + b.x * a.y, 3 * (a.x * c.x), a.x * c.y + c.x * a.y);
  }

  /** The negative of a point: what is added to it has no x and no z coordinate, like the point at infinity. */
  method Negate(p: int, a: Point) returns (r: Point)
    requires p > 1 && CanonicalPoint(p, a)
    ensures r == if a.y == 0 then POINT_AT_INFINITY else a.(y := Sub(p, 0, a.y))
    ensures Eq(p, SumX(a, r), 0) && Eq(p, SumZ(a, r), 0)
  {
    if a.y == 0 {
      InfinityIsNeutral(a);
      return POINT_AT_INFINITY;
    }
    r := Point(a.x, Sub(p, 0, a.y), a.z);
    var n := a.(y := -a.y);
    NegativeCancels(a);
    SumsAlike(p, a, r, n) by { Reduced(p, -a.y); SameEq(p, a.x); SameEq(p, a.z); }
  }

  /** What a point misses the curve by. */
  function Miss(a: Point): int { a.x * a.x * a.x + 7 * (a.z * a.z * a.z) - a.y * a.y * a.z }

  lemma MissIsZero(p: int, a: Point)
    requires p > 0
    ensures Eq(p, Miss(a), 0) <==> OnCurve(p, a)
  {
    DistinctDiffer(p, a.x * a.x * a.x + 7 * (a.z * a.z * a.z), a.y * a.y * a.z);
  }

  /** Three polynomial identities behind doubling; the first holds outright. */
  lemma DoubleIdentities(a: Point)
    ensures SumX(a, a) == DoubleX(a)
    ensures SumY(a, a) == DoubleY(a) + 126 * a.z * (a.x * a.x * a.x + 7 * (a.z * a.z * a.z) - a.y * a.y * a.z)
    ensures SumZ(a, a) == DoubleZ(a) + 6 * a.y * (a.x * a.x * a.x + 7 * (a.z * a.z * a.z) - a.y * a.y * a.z)
  {
  }

  lemma DoubleMisses(a: Point)
    ensures SumX(a, a) == DoubleX(a)
    ensures SumY(a, a) == DoubleY(a) + 126 * a.z * Miss(a) && SumZ(a, a) == DoubleZ(a) + 6 * a.y * Miss(a)
  {
    hide SumX, SumY, SumZ, DoubleX, DoubleY, DoubleZ;
    DoubleIdentities(a);
  }

  lemma VanishingTerm(p: int, k: int, e: int, v: int)
    requires p > 0 && Eq(p, e, 0)
    ensures Eq(p, v + k * e, v)
  {
    ProductEq(p, k, k, e, 0);
    SumEq(p, v, v, k * e, 0);
  }

  /** On every point of the curve, doubling is adding the point to itself, coordinate for coordinate. */
  lemma DoublingIsSelfAddition(p: int, a: Point)
    requires p > 0 && OnCurve(p, a)
    ensures Eq(p, SumX(a, a), DoubleX(a)) && Eq(p, SumY(a, a), DoubleY(a)) && Eq(p, SumZ(a, a), DoubleZ(a))
  {
    MissIsZero(p, a);
    DoubleIdentities(a);
    VanishingTerm(p, 126 * a.z, Miss(a), DoubleY(a));
    VanishingTerm(p, 6 * a.y, Miss(a), DoubleZ(a));
  }

  /** A term c * v * e makes no difference exactly when one of its factors is zero. */
  lemma TermVanishes(p: int, c: int, v: int, e: int, w: int)
    requires Prime(p)
    ensures Eq(p, w + c * v * e, w) <==> Eq(p, c, 0) || Eq(p, v, 0) || Eq(p, e, 0)
  {
    DistinctDiffer(p, w + c * v * e, w);
    assert w + c * v * e - w == c * v * e;
    if Eq(p, c * v * e, 0) {
      NoZeroDivisors(p, c * v, e);
      if !Eq(p, e, 0) { NoZeroDivisors(p, c, v); }
    }
    if Eq(p, c, 0) { ProductEq(p, c, 0, v, v); ProductEq(p, c * v, 0, e, e); }
    if Eq(p, v, 0) { ProductEq(p, c, c, v, 0); ProductEq(p, c * v, 0, e, e); }
    if Eq(p, e, 0) { ProductEq(p, c * v, c * v, e, 0); }
  }

  /**
   * Exactly when doubling is adding the point to itself, over any prime field: on the curve, and off it
   * when both the y and the z coordinate are zero or the coefficient that they come with is. In a field
   * of another characteristic than 2, 3 and 7, as that of secp256k1, the coefficients are not zero.
   */
  lemma DoublingExactly(p: int, a: Point)
    requires Prime(p)
    ensures Eq(p, SumX(a, a), DoubleX(a)) && Eq(p, SumY(a, a), DoubleY(a)) && Eq(p, SumZ(a, a), DoubleZ(a)) <==>
      OnCurve(p, a) || ((Eq(p, a.z, 0) || Eq(p, 126, 0)) && (Eq(p, a.y, 0) || Eq(p, 6, 0)))
  {
    hide Eq, OnCurve, SumX, SumY, SumZ, DoubleX, DoubleY, DoubleZ, Miss;
    DoubleMisses(a);
    SameEq(p, DoubleX(a));
    MissIsZero(p, a);
    TermVanishes(p, 126, a.z, Miss(a), DoubleY(a));
    TermVanishes(p, 6, a.y, Miss(a), DoubleZ(a));
  }

  /** Addition is commutative, coordinate for coordinate. */
  lemma SumCommutes(a: Point, b: Point)
    ensures SumX(a, b) == SumX(b, a) && SumY(a, b) == SumY(b, a) && SumZ(a, b) == SumZ(b, a)
  {
  }

  /** Adding the point at infinity scales all coordinates by y. */
  lemma InfinityIsNeutral(a: Point)
    ensures var o := POINT_AT_INFINITY;
      SumX(a, o) == a.y * a.x && SumY(a, o) == a.y * a.y && SumZ(a, o) == a.y * a.z
  {
  }

  /** A point and its negative add up to a multiple of the point at infinity. */
  lemma NegativeCancels(a: Point)
    ensures var n := a.(y := -a.y);
      SumX(a, n) == 0 && SumZ(a, n) == 0
  {
  }
}
