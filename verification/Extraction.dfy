/** The extraction matrix: the transposed Vandermonde matrix of the parties' points. */
module Extraction {
  import opened Wrappers
  import opened SimTypes
  import opened Zp
  import opened Polynomials
  import opened Interpolation
  import opened Shamir
  import opened Matrices

  /** Row j holds the j-th powers of the points. */
  ghost function ExtractionRows(p: int, points: seq<int>, outputs: nat): (r: seq<seq<int>>)
    requires p > 0 && points != [] && outputs > 0
    ensures Rectangular(r) && |r| == outputs && |r[0]| == |points|
    ensures forall j, i :: 0 <= j < outputs && 0 <= i < |points| ==> r[j][i] == Power(points[i], j) % p
  {
    TransposeOf(VandermondeRows(p, points, outputs))
  }

  /** The matrix for these parties; the callers see to it that there are parties and outputs. */
  method ExtractionMatrix(p: int, parties: seq<PartyId>, outputs: nat) returns (m: Matrix)
    requires p > 1 && parties != [] && outputs > 0
    ensures fresh(m) && m.Valid() && m.p == p && m.View() == ExtractionRows(p, EncodeAll(p, parties), outputs)
  {
    var points := EncodeAll(p, parties);
    var vandermonde := Matrix.Vandermonde(p, points, outputs);
    m := vandermonde.value.Transpose();
  }

  /** The combination of the first `n` polynomials with the coefficients in `row`. */
  function Combine(row: seq<int>, fs: seq<seq<int>>, n: nat): seq<int>
    requires 0 < n <= |row| && n <= |fs|
  {
    if n == 1 then Scale(row[0], fs[0])
    else Plus(Combine(row, fs, n - 1), Scale(row[n - 1], fs[n - 1]))
  }

  /** What the polynomials are at `x`. */
  function ValuesAt(fs: seq<seq<int>>, x: int): (r: seq<int>)
    ensures |r| == |fs| && forall i :: 0 <= i < |r| ==> r[i] == Eval(fs[i], x)
  {
    seq(|fs|, i requires 0 <= i < |fs| => Eval(fs[i], x))
  }

  lemma {:induction false} EvalCombine(row: seq<int>, fs: seq<seq<int>>, n: nat, x: int)
    requires 0 < n <= |row| && n <= |fs|
    ensures Eval(Combine(row, fs, n), x) == Dot(row, ValuesAt(fs, x), n)
  {
    hide Eval, Plus, Scale;
    EvalScale(row[n - 1], fs[n - 1], x);
    if n > 1 {
      EvalCombine(row, fs, n - 1, x);
      EvalPlus(Combine(row, fs, n - 1), Scale(row[n - 1], fs[n - 1]), x);
    }
  }

  /** One share of each polynomial at the same point, all of one degree. */
  ghost predicate SharesAt(p: int, fs: seq<seq<int>>, degree: nat, x: int, shares: seq<Share>)
    requires p > 0
  {
    |shares| == |fs| && forall i :: 0 <= i < |shares| ==> shares[i].degree == degree && ShareOf(p, fs[i], x, shares[i])
  }

  /** Combining shares commutes with sharing: a row of shares is a share of the row's combination. */
  lemma {:induction false} RowShareOf(p: int, row: seq<int>, fs: seq<seq<int>>, degree: nat, x: int,
        shares: seq<Share>, n: nat)
    requires p > 0 && SharesAt(p, fs, degree, x, shares) && 0 < n <= |row| && n <= |fs|
    ensures ShareOf(p, Combine(row, fs, n), x, RowShare(p, row, shares, n))
      && RowShare(p, row, shares, n).degree == degree
  {
    hide ShareOf, Plus, Scale, Eval;
    ScaledShare(p, fs[n - 1], row[n - 1], x, shares[n - 1]);
    if n > 1 {
      RowShareOf(p, row, fs, degree, x, shares, n - 1);
      LinearShares(p, Combine(row, fs, n - 1), Scale(row[n - 1], fs[n - 1]), x,
        RowShare(p, row, shares, n - 1), MulConst(p, shares[n - 1], row[n - 1]));
    }
  }

  // Injectivity. The differences of the secrets are weighed with a polynomial in the points: if all
  // outputs agree, every such weighted sum is zero, and a Lagrange basis polynomial singles out one.

  /** The sum of q(x_i) * x_i^a * d_i over the first `n` points. */
  function Weighted(q: seq<int>, a: nat, xs: seq<int>, d: seq<int>, n: nat): int
    requires n <= |xs| && n <= |d|
  {
    if n == 0 then 0 else Weighted(q, a, xs, d, n - 1) + Eval(q, xs[n - 1]) * Power(xs[n - 1], a) * d[n - 1]
  }

  lemma WeighOne(q0: int, x: int, h: int, power: int, d: int)
    ensures (q0 + x * h) * power * d == q0 * (1 * power * d) + h * (x * power) * d
  {
    assert (q0 + x * h) * power == q0 * power + x * h * power;
    assert x * h * power == h * (x * power);
    assert (q0 * power + h * (x * power)) * d == q0 * power * d + h * (x * power) * d;
    assert q0 * power * d == q0 * (power * d);
  }

  lemma One(x: int)
    ensures Eval([1], x) == 1
  {
    assert Eval([1][1..], x) == 0;
  }

  /** The first coefficient of the weight contributes a power sum; the others one degree higher. */
  lemma {:induction false} WeighFirst(q: seq<int>, a: nat, xs: seq<int>, d: seq<int>, n: nat)
    requires q != [] && n <= |xs| && n <= |d|
    ensures Weighted(q, a, xs, d, n) == q[0] * Weighted([1], a, xs, d, n) + Weighted(q[1..], a + 1, xs, d, n)
  {
    if n > 0 {
      WeighFirst(q, a, xs, d, n - 1);
      One(xs[n - 1]);
      WeighOne(q[0], xs[n - 1], Eval(q[1..], xs[n - 1]), Power(xs[n - 1], a), d[n - 1]);
      Distribute(q[0], Weighted([1], a, xs, d, n - 1), 1 * Power(xs[n - 1], a) * d[n - 1]);
    }
  }

  /** If the power sums are zero, so is every sum weighed with a short enough polynomial. */
  lemma {:induction false} WeighsNothing(p: int, q: seq<int>, a: nat, xs: seq<int>, d: seq<int>)
    requires p > 0 && |xs| == |d|
    requires forall b: nat :: a <= b < a + |q| ==> Eq(p, Weighted([1], b, xs, d, |d|), 0)
    ensures Eq(p, Weighted(q, a, xs, d, |d|), 0)
    decreases |q|
  {
    if q == [] {
      NoWeight(a, xs, d, |d|);
    } else {
      hide Weighted, Eq;
      WeighsNothing(p, q[1..], a + 1, xs, d);
      WeighFirst(q, a, xs, d, |d|);
      var s, r := Weighted([1], a, xs, d, |d|), Weighted(q[1..], a + 1, xs, d, |d|);
      ProductEq(p, q[0], q[0], s, 0);
      SumEq(p, q[0] * s, q[0] * 0, r, 0);
    }
  }

  lemma {:induction false} NoWeight(a: nat, xs: seq<int>, d: seq<int>, n: nat)
    requires n <= |xs| && n <= |d|
    ensures Weighted([], a, xs, d, n) == 0
  {
    if n > 0 { NoWeight(a, xs, d, n - 1); }
  }

  /** A weight that is one at `k` and zero wherever else a difference is left. */
  lemma {:induction false} SingleOut(p: int, q: seq<int>, xs: seq<int>, d: seq<int>, n: nat, k: nat)
    requires p > 0 && k < |xs| == |d| && n <= |d| && Eq(p, Eval(q, xs[k]), 1)
    requires forall i :: 0 <= i < |d| && i != k ==> d[i] == 0 || Eval(q, xs[i]) == 0
    ensures Eq(p, Weighted(q, 0, xs, d, n), if k < n then d[k] else 0)
  {
    if n > 0 {
      SingleOut(p, q, xs, d, n - 1, k);
      var v := Eval(q, xs[n - 1]);
      assert v * Power(xs[n - 1], 0) * d[n - 1] == v * d[n - 1];
      if n - 1 == k {
        ProductEq(p, v, 1, d[k], d[k]);
        SumEq(p, Weighted(q, 0, xs, d, n - 1), 0, v * d[k], d[k]);
      } else {
        assert v * d[n - 1] == 0;
      }
    }
  }

  function Differences(s: seq<int>, t: seq<int>): (d: seq<int>)
    requires |s| == |t|
    ensures |d| == |s| && forall i :: 0 <= i < |d| ==> d[i] == s[i] - t[i]
  {
    seq(|s|, i requires 0 <= i < |s| => s[i] - t[i])
  }

  lemma DifferenceStep(p: int, w: int, ds: int, dt: int, power: int, r: int, s: int, t: int)
    requires p > 0 && Eq(p, w, ds - dt) && r == power % p
    ensures Eq(p, w + 1 * power * (s - t), (ds + r * s) - (dt + r * t))
  {
    Reduced(p, power);
    ProductEq(p, power, r, s - t, s - t);
    SumEq(p, w, ds - dt, power * (s - t), r * (s - t));
    assert r * (s - t) == r * s - r * t;
  }

  /** The difference of two outputs is a power sum of the differences of the secrets. */
  lemma {:induction false} OutputDifference(p: int, points: seq<int>, row: seq<int>, b: nat, s: seq<int>, t: seq<int>,
        n: nat)
    requires p > 0 && |s| == |t| == |points| == |row| && n <= |s|
    requires forall i :: 0 <= i < |row| ==> row[i] == Power(points[i], b) % p
    ensures Eq(p, Weighted([1], b, points, Differences(s, t), n), Dot(row, s, n) - Dot(row, t, n))
  {
    if n > 0 {
      hide Eq, Power, Eval;
      OutputDifference(p, points, row, b, s, t, n - 1);
      One(points[n - 1]);
      DifferenceStep(p, Weighted([1], b, points, Differences(s, t), n - 1), Dot(row, s, n - 1), Dot(row, t, n - 1),
        Power(points[n - 1], b), row[n - 1], s[n - 1], t[n - 1]);
    }
  }

  /** The outputs extracted from these secrets. */
  ghost function Extract(p: int, points: seq<int>, outputs: nat, secrets: seq<int>): (r: seq<int>)
    requires p > 0 && points != [] && outputs > 0 && |secrets| == |points|
    ensures |r| == outputs
    ensures forall j :: 0 <= j < outputs ==> r[j] == Dot(ExtractionRows(p, points, outputs)[j], secrets, |secrets|) % p
  {
    seq(outputs, j requires 0 <= j < outputs => Dot(ExtractionRows(p, points, outputs)[j], secrets, |secrets|) % p)
  }

  lemma SameOutputs(p: int, points: seq<int>, outputs: nat, s: seq<int>, t: seq<int>)
    requires p > 0 && points != [] && outputs > 0 && |s| == |t| == |points|
    requires Extract(p, points, outputs, s) == Extract(p, points, outputs, t)
    ensures forall b: nat :: b < outputs ==> Eq(p, Weighted([1], b, points, Differences(s, t), |s|), 0)
  {
    forall b: nat | b < outputs ensures Eq(p, Weighted([1], b, points, Differences(s, t), |s|), 0) {
      SameOutput(p, points, outputs, s, t, b);
    }
  }

  lemma SameOutput(p: int, points: seq<int>, outputs: nat, s: seq<int>, t: seq<int>, b: nat)
    requires p > 0 && points != [] && outputs > 0 && |s| == |t| == |points| && b < outputs
    requires Extract(p, points, outputs, s) == Extract(p, points, outputs, t)
    ensures Eq(p, Weighted([1], b, points, Differences(s, t), |s|), 0)
  {
    hide Power, Weighted, Differences, Dot, ExtractionRows;
    var row := ExtractionRows(p, points, outputs)[b];
    OutputDifference(p, points, row, b, s, t, |s|);
    assert Extract(p, points, outputs, s)[b] == Extract(p, points, outputs, t)[b];
    hide Extract;
    var u, v := Dot(row, s, |s|), Dot(row, t, |t|);
    assert Eq(p, u, v);
    DistinctDiffer(p, u, v);
  }

  /**
   * With distinct points, any `outputs` columns of the extraction matrix form an injective map: fixing
   * the secrets of the other dealers, the outputs determine those of the chosen dealers.
   */
  lemma ExtractionIsInjective(p: int, points: seq<int>, chosen: seq<nat>, s: seq<int>, t: seq<int>, c: nat)
    requires Prime(p) && AllDistinct(p, points) && |s| == |t| == |points| && c < |chosen|
    requires forall i :: 0 <= i < |chosen| ==> chosen[i] < |points|
    requires forall i, j :: 0 <= i < j < |chosen| ==> chosen[i] != chosen[j]
    requires forall i :: 0 <= i < |points| && i !in chosen ==> s[i] == t[i]
    requires points != [] && Extract(p, points, |chosen|, s) == Extract(p, points, |chosen|, t)
    ensures Eq(p, s[chosen[c]], t[chosen[c]])
  {
    hide Eval, Eq, Extract, Weighted, BasisPoly;
    var xs, d, k := Pick(points, chosen), Differences(s, t), chosen[c];
    forall i, j | 0 <= i < j < |xs| ensures !Eq(p, xs[i], xs[j]) {
      NodesDiffer(p, points, chosen[i], chosen[j]);
    }
    var q := BasisPoly(p, xs, c, |xs|);
    SameOutputs(p, points, |chosen|, s, t);
    assert |q| == |chosen|;
    WeighsNothing(p, q, 0, points, d);
    BasisOne(p, xs, c, |xs|);
    forall i | 0 <= i < |d| && i != k ensures d[i] == 0 || Eval(q, points[i]) == 0 {
      if i in chosen {
        var b :| 0 <= b < |chosen| && chosen[b] == i;
        BasisZero(p, xs, c, |xs|, b);
      }
    }
    SingleOut(p, q, points, d, |d|, k);
    Conclude(p, Weighted(q, 0, points, d, |d|), d[k], s[k], t[k]);
  }

  lemma Conclude(p: int, w: int, d: int, s: int, t: int)
    requires p > 0 && Eq(p, w, 0) && Eq(p, w, d) && d == s - t
    ensures Eq(p, s, t)
  {
    DistinctDiffer(p, s, t);
  }
}
