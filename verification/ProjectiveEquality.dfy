/**
 * Points with proportional coordinates are one point. The addition formulas respect this: they are
 * homogeneous of degree two in either operand.
 */
module ProjectiveEquality {
  import opened Wrappers
  import opened Zp
  import opened Interpolation
  import opened Secp256k1

  /** The equality of points: the first two coordinates are in the same proportion to the third. */
  predicate SamePoint(p: int, a: Point, b: Point)
    requires p > 0
  {
    Eq(p, a.x * b.z, b.x * a.z) && Eq(p, a.y * b.z, b.y * a.z)
  }

  predicate IsZero(p: int, a: Point)
    requires p > 0
  {
    Eq(p, a.x, 0) && Eq(p, a.y, 0) && Eq(p, a.z, 0)
  }

  /** A point of the curve: its coordinates satisfy the equation, and are not all zero. */
  predicate IsPoint(p: int, a: Point)
    requires p > 0
  {
    OnCurve(p, a) && !IsZero(p, a)
  }

  function Scaled(l: int, a: Point): Point { Point(l * a.x, l * a.y, l * a.z) }

  predicate Congruent(p: int, a: Point, b: Point)
    requires p > 0
  {
    Eq(p, a.x, b.x) && Eq(p, a.y, b.y) && Eq(p, a.z, b.z)
  }

  function Added(a: Point, b: Point): Point { Point(SumX(a, b), SumY(a, b), SumZ(a, b)) }

  // Homogeneity.

  /** The terms of which the sums are made. */
  datatype Terms = Terms(xy: int, yz: int, xz: int, xx: int, minus: int, plus: int)

  function TermsOf(a: Point, b: Point): Terms {
    Terms(a.x * b.y + b.x * a.y, a.y * b.z + b.y * a.z, a.x * b.z + b.x * a.z, a.x * b.x,
      a.y * b.y - 21 * (a.z * b.z), a.y * b.y + 21 * (a.z * b.z))
  }

  function OfTerms(t: Terms): Point {
    Point(t.xy * t.minus - 21 * t.yz * t.xz, t.minus * t.plus + 63 * t.xx * t.xz, t.plus * t.yz + 3 * t.xx * t.xy)
  }

  lemma SumOfTerms(a: Point, b: Point)
    ensures Added(a, b) == OfTerms(TermsOf(a, b))
  {
  }

  lemma TermsScale(l: int, a: Point, b: Point)
    ensures var (s, t) := (TermsOf(Scaled(l, a), b), TermsOf(a, b));
      s == Terms(l * t.xy, l * t.yz, l * t.xz, l * t.xx, l * t.minus, l * t.plus)
  {
    Bilinear(l, a.x, b.y, b.x, a.y);
    Bilinear(l, a.y, b.z, b.y, a.z);
    Bilinear(l, a.x, b.z, b.x, a.z);
    Bilinear(l, a.y, b.y, -21 * b.z, a.z);
    Bilinear(l, a.y, b.y, 21 * b.z, a.z);
    assert (l * a.x) * b.x == l * (a.x * b.x);
    Swap(21, l * a.z, b.z);
    Swap(21, a.z, b.z);
  }

  lemma Swap(c: int, u: int, v: int)
    ensures c * v * u == c * (u * v) && (-c * v) * u == -(c * (u * v))
  {
  }

  lemma Bilinear(l: int, u: int, v: int, w: int, x: int)
    ensures (l * u) * v + w * (l * x) == l * (u * v + w * x)
  {
  }

  lemma Quadratic(l: int, u: int, v: int, c: int, w: int, x: int)
    ensures (l * u) * (l * v) + c * (l * w) * (l * x) == l * l * (u * v + c * w * x)
  {
    TwoFactors(l, u, v);
    Out(c, l, w);
    TwoFactors(l, c * w, x);
    Shared(l * l, u * v, c * w * x);
  }

  lemma TwoFactors(l: int, u: int, v: int)
    ensures (l * u) * (l * v) == l * l * (u * v)
  {
  }

  lemma Out(c: int, l: int, w: int)
    ensures c * (l * w) == l * (c * w)
  {
  }

  lemma Shared(m: int, u: int, v: int)
    ensures m * u + m * v == m * (u + v)
  {
  }

  lemma SumIsHomogeneous(l: int, a: Point, b: Point)
    ensures Added(Scaled(l, a), b) == Scaled(l * l, Added(a, b))
  {
    hide Added, TermsOf, Scaled;
    SumOfTerms(Scaled(l, a), b);
    SumOfTerms(a, b);
    TermsScale(l, a, b);
    var t := TermsOf(a, b);
    Quadratic(l, t.xy, t.minus, -21, t.yz, t.xz);
    Quadratic(l, t.minus, t.plus, 63, t.xx, t.xz);
    Quadratic(l, t.plus, t.yz, 3, t.xx, t.xy);
    ScaledIs(l * l, OfTerms(t));
  }

  lemma ScaledIs(l: int, a: Point)
    ensures Scaled(l, a) == Point(l * a.x, l * a.y, l * a.z)
  {
  }

  // Proportional points.

  /** The coordinates of `b` are those of `a` times `l`, which is not zero. */
  predicate Proportional(p: int, a: Point, b: Point, l: int)
    requires p > 0
  {
    !Eq(p, l, 0) && Congruent(p, b, Scaled(l, a))
  }

  /** Proportional points are the same. */
  lemma ProportionalIsSame(p: int, a: Point, b: Point, l: int)
    requires p > 0 && Congruent(p, b, Scaled(l, a))
    ensures SamePoint(p, a, b)
  {
    CrossProducts(p, a.x, a.z, b.x, b.z, l);
    CrossProducts(p, a.y, a.z, b.y, b.z, l);
  }

  lemma CrossProducts(p: int, u: int, w: int, v: int, x: int, l: int)
    requires p > 0 && Eq(p, v, l * u) && Eq(p, x, l * w)
    ensures Eq(p, u * x, v * w)
  {
    hide Eq;
    SameEq(p, u);
    SameEq(p, w);
    ProductEq(p, u, u, x, l * w);
    ProductEq(p, v, l * u, w, w);
    assert u * (l * w) == l * u * w;
    Chain(p, u * x, l * u * w, v * w);
  }

  lemma Chain(p: int, u: int, v: int, w: int)
    requires p > 0 && Eq(p, u, v) && Eq(p, w, v)
    ensures Eq(p, u, w) && Eq(p, w, u)
  {
  }

  /** On the curve a point without a z coordinate has no x coordinate either. */
  lemma AtInfinity(p: int, a: Point)
    requires Prime(p) && IsPoint(p, a) && Eq(p, a.z, 0)
    ensures Eq(p, a.x, 0) && !Eq(p, a.y, 0)
  {
    hide Eq;
    SameEq(p, a.y * a.y);
    ProductEq(p, a.y * a.y, a.y * a.y, a.z, 0);
    ProductEq(p, a.z, 0, a.z, 0);
    ProductEq(p, a.z * a.z, 0, a.z, 0);
    SameEq(p, 7);
    ProductEq(p, 7, 7, a.z * a.z * a.z, 0);
    OnlyCube(p, a);
    NoZeroDivisors(p, a.x * a.x, a.x) by { assert Eq(p, a.x * a.x * a.x, 0); }
    if Eq(p, a.x * a.x, 0) { NoZeroDivisors(p, a.x, a.x); }
  }

  lemma OnlyCube(p: int, a: Point)
    requires p > 0 && OnCurve(p, a) && Eq(p, a.y * a.y * a.z, 0) && Eq(p, 7 * (a.z * a.z * a.z), 0)
    ensures Eq(p, a.x * a.x * a.x, 0)
  {
    var cube, seven := a.x * a.x * a.x, 7 * (a.z * a.z * a.z);
    SumEq(p, cube + seven, 0, seven, 0) by { Chain(p, 0, a.y * a.y * a.z, cube + seven); }
    assert cube + seven - seven == cube;
  }

  /** The factor by which `b` is `a`, read off a coordinate of `a` that is not zero. */
  function Factor(p: int, a: Point, b: Point): int
    requires Prime(p)
  {
    if Eq(p, a.z, 0) then b.y * Reciprocal(p, a.y) else b.z * Reciprocal(p, a.z)
  }

  /** A coordinate that crosses with one that is not zero. */
  lemma Follows(p: int, u: int, w: int, v: int, x: int)
    requires Prime(p) && !Eq(p, w, 0) && Eq(p, u * x, v * w)
    ensures var l := x * Reciprocal(p, w); Eq(p, v, l * u) && Eq(p, x, l * w)
  {
    var i := Reciprocal(p, w);
    hide Eq;
    SameEq(p, i);
    Undo(p, w, x);
    Undo(p, w, v);
    ProductEq(p, i, i, u * x, v * w);
    assert i * (u * x) == x * i * u && i * (v * w) == v * i * w;
    Chain(p, x * i * u, v * i * w, v);
  }

  lemma Undo(p: int, w: int, v: int)
    requires Prime(p) && !Eq(p, w, 0)
    ensures Eq(p, v, v * Reciprocal(p, w) * w)
  {
    hide Eq, Reciprocal;
    var i := Reciprocal(p, w);
    FactorsAt(p, w, 0, w);
    SameEq(p, v);
    ProductEq(p, v, v, w * i, 1);
    assert v * (w * i) == v * i * w;
    Chain(p, v, v * 1, v * i * w);
  }

  lemma SameByZ(p: int, a: Point, b: Point)
    requires Prime(p) && SamePoint(p, a, b) && IsPoint(p, b) && !Eq(p, a.z, 0)
    ensures Proportional(p, a, b, Factor(p, a, b))
  {
    var l := Factor(p, a, b);
    Follows(p, a.x, a.z, b.x, b.z);
    Follows(p, a.y, a.z, b.y, b.z);
    assert Congruent(p, b, Scaled(l, a));
    ZeroFactor(p, a, b, l);
  }

  lemma ZeroFactor(p: int, a: Point, b: Point, l: int)
    requires p > 0 && Congruent(p, b, Scaled(l, a)) && !IsZero(p, b)
    ensures !Eq(p, l, 0)
  {
    if Eq(p, l, 0) {
      ProductEq(p, l, 0, a.x, a.x);
      ProductEq(p, l, 0, a.y, a.y);
      ProductEq(p, l, 0, a.z, a.z);
    }
  }

  lemma SameByY(p: int, a: Point, b: Point)
    requires Prime(p) && SamePoint(p, a, b) && IsPoint(p, a) && IsPoint(p, b) && Eq(p, a.z, 0)
    ensures Proportional(p, a, b, Factor(p, a, b))
  {
    hide OnCurve;
    var l := Factor(p, a, b);
    AtInfinity(p, a);
    BothAtInfinity(p, a, b);
    AtInfinity(p, b);
    ProductEq(p, a.z, 0, b.y, b.y);
    ProductEq(p, a.x, 0, b.y, b.y);
    ProductEq(p, b.z, 0, a.y, a.y);
    ProductEq(p, b.x, 0, a.y, a.y);
    Follows(p, a.x, a.y, b.x, b.y) by { assert Eq(p, a.x * b.y, b.x * a.y); }
    Follows(p, a.z, a.y, b.z, b.y) by { assert Eq(p, a.z * b.y, b.z * a.y); }
    assert Congruent(p, b, Scaled(l, a));
    ZeroFactor(p, a, b, l);
  }

  lemma BothAtInfinity(p: int, a: Point, b: Point)
    requires Prime(p) && SamePoint(p, a, b) && Eq(p, a.z, 0) && !Eq(p, a.y, 0)
    ensures Eq(p, b.z, 0)
  {
    ProductEq(p, b.y, b.y, a.z, 0);
    NoZeroDivisors(p, a.y, b.z);
  }

  /** Two points of the curve are the same exactly when all their coordinates are proportional. */
  lemma SameIsProportional(p: int, a: Point, b: Point)
    requires Prime(p) && IsPoint(p, a) && IsPoint(p, b)
    ensures SamePoint(p, a, b) <==> exists l :: Proportional(p, a, b, l)
  {
    hide Eq, OnCurve, IsZero, Congruent;
    if SamePoint(p, a, b) {
      if Eq(p, a.z, 0) { SameByY(p, a, b); } else { SameByZ(p, a, b); }
    }
    if l :| Proportional(p, a, b, l) { ProportionalIsSame(p, a, b, l); }
  }

  // Sums of the same points.

  lemma CongruentTwice(p: int, a: Point, b: Point, c: Point)
    requires p > 0 && Congruent(p, a, b) && Congruent(p, b, c)
    ensures Congruent(p, a, c)
  {
  }

  lemma ScaledCongruent(p: int, l: int, a: Point, b: Point)
    requires p > 0 && Congruent(p, a, b)
    ensures Congruent(p, Scaled(l, a), Scaled(l, b))
  {
    SameEq(p, l);
    ProductEq(p, l, l, a.x, b.x);
    ProductEq(p, l, l, a.y, b.y);
    ProductEq(p, l, l, a.z, b.z);
  }

  lemma ScaledTwice(l: int, m: int, a: Point)
    ensures Scaled(l, Scaled(m, a)) == Scaled(l * m, a)
  {
    assert forall c :: l * (m * c) == l * m * c;
  }

  /** Scaling an operand, up to congruence, scales the sum by the square. */
  lemma SumScales(p: int, a: Point, b: Point, c: Point, l: int)
    requires p > 0 && Congruent(p, b, Scaled(l, a))
    ensures Congruent(p, Added(b, c), Scaled(l * l, Added(a, c)))
    ensures Congruent(p, Added(c, b), Scaled(l * l, Added(c, a)))
  {
    SumsAlike(p, c, b, Scaled(l, a));
    assert Congruent(p, Added(c, b), Added(c, Scaled(l, a)));
    hide SumX, SumY, SumZ, Eq, Scaled;
    SumCommutes(c, b);
    SumCommutes(c, a);
    SumCommutes(c, Scaled(l, a));
    SumIsHomogeneous(l, a, c);
  }

  /**
   * The sum of two points does not depend on the coordinates by which they are given: sums of the same
   * points are the same.
   */
  lemma SumRespectsEquality(p: int, a: Point, a': Point, b: Point, b': Point)
    requires Prime(p) && IsPoint(p, a) && IsPoint(p, a') && IsPoint(p, b) && IsPoint(p, b')
    requires SamePoint(p, a, a') && SamePoint(p, b, b')
    ensures SamePoint(p, Added(a, b), Added(a', b'))
  {
    hide IsPoint, SamePoint, Congruent, Added, Scaled;
    SameIsProportional(p, a, a');
    SameIsProportional(p, b, b');
    var l :| Proportional(p, a, a', l);
    var m :| Proportional(p, b, b', m);
    SumScales(p, a, a', b', l);
    SumScales(p, b, b', a, m);
    ScaledCongruent(p, l * l, Added(a, b'), Scaled(m * m, Added(a, b)));
    ScaledTwice(l * l, m * m, Added(a, b));
    CongruentTwice(p, Added(a', b'), Scaled(l * l, Added(a, b')), Scaled(l * l * (m * m), Added(a, b)));
    ProportionalIsSame(p, Added(a, b), Added(a', b'), l * l * (m * m));
  }

  /** Adding the point at infinity leaves a point the same. */
  lemma PlusInfinityIsSame(p: int, a: Point)
    requires p > 0
    ensures SamePoint(p, Added(a, POINT_AT_INFINITY), a)
  {
    hide Eq, SumX, SumY, SumZ;
    InfinityIsNeutral(a);
    Regrouped(a.y, a.x, a.z);
    Regrouped(a.y, a.y, a.z);
    SameEq(p, a.y * a.x * a.z);
    SameEq(p, a.y * a.y * a.z);
  }

  lemma Regrouped(u: int, v: int, w: int)
    ensures u * v * w == v * (u * w)
  {
  }
}
