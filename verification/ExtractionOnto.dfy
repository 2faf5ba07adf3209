/**
 * Every output vector of the extraction is reached: the secrets of the chosen dealers that lead to it
 * are computed, by eliminating one dealer after the other.
 */
module ExtractionOnto {
  import opened Zp
  import opened Polynomials
  import opened Interpolation
  import opened Shamir
  import opened Matrices
  import opened Extraction

  /** The sum of xs[i]^a * d[i]. */
  function Moment(xs: seq<int>, d: seq<int>, a: nat): int
    requires |xs| == |d|
  {
    var n := |xs|;
    if n == 0 then 0 else Moment(xs[..n - 1], d[..n - 1], a) + Power(xs[n - 1], a) * d[n - 1]
  }

  /** Each weight times the distance of its point from `x`. */
  function Distanced(xs: seq<int>, d: seq<int>, x: int): (r: seq<int>)
    requires |xs| == |d|
    ensures |r| == |d| && forall i :: 0 <= i < |r| ==> r[i] == (xs[i] - x) * d[i]
  {
    seq(|d|, i requires 0 <= i < |d| => (xs[i] - x) * d[i])
  }

  lemma PowerShift(y: int, x: int, power: int, d: int)
    ensures y * power * d - x * (power * d) == power * ((y - x) * d)
  {
    assert y * power * d == power * (y * d);
    assert x * (power * d) == power * (x * d);
    assert power * (y * d) - power * (x * d) == power * (y * d - x * d);
  }

  lemma PowerNext(x: int, a: nat)
    ensures Power(x, a + 1) == x * Power(x, a)
  {
  }

  /** One moment less x times the moment before it. */
  lemma {:induction false} MomentShift(xs: seq<int>, d: seq<int>, x: int, a: nat)
    requires |xs| == |d|
    ensures Moment(xs, d, a + 1) - x * Moment(xs, d, a) == Moment(xs, Distanced(xs, d, x), a)
  {
    hide Power, Distanced;
    var n := |xs|;
    if n > 0 {
      var e := Distanced(xs, d, x);
      PowerNext(xs[n - 1], a);
      MomentShift(xs[..n - 1], d[..n - 1], x, a);
      assert e[..n - 1] == Distanced(xs[..n - 1], d[..n - 1], x);
      var m, v := Moment(xs[..n - 1], d[..n - 1], a), Power(xs[n - 1], a) * d[n - 1];
      PowerShift(xs[n - 1], x, Power(xs[n - 1], a), d[n - 1]);
      assert x * (m + v) == x * m + x * v;
    }
  }

  lemma {:induction false} MomentEq(p: int, xs: seq<int>, d: seq<int>, e: seq<int>, a: nat)
    requires p > 0 && |xs| == |d| == |e| && forall i :: 0 <= i < |d| ==> Eq(p, d[i], e[i])
    ensures Eq(p, Moment(xs, d, a), Moment(xs, e, a))
  {
    hide Eq, Power;
    var n := |xs|;
    if n > 0 {
      MomentEq(p, xs[..n - 1], d[..n - 1], e[..n - 1], a);
      SameEq(p, Power(xs[n - 1], a));
      ProductEq(p, Power(xs[n - 1], a), Power(xs[n - 1], a), d[n - 1], e[n - 1]);
      SumEq(p, Moment(xs[..n - 1], d[..n - 1], a), Moment(xs[..n - 1], e[..n - 1], a),
        Power(xs[n - 1], a) * d[n - 1], Power(xs[n - 1], a) * e[n - 1]);
    } else {
      SameEq(p, 0);
    }
  }

  function Sum(d: seq<int>): int { if d == [] then 0 else Sum(d[..|d| - 1]) + d[|d| - 1] }

  lemma {:induction false} MomentZero(xs: seq<int>, d: seq<int>)
    requires |xs| == |d|
    ensures Moment(xs, d, 0) == Sum(d)
  {
    if xs != [] { MomentZero(xs[..|xs| - 1], d[..|d| - 1]); }
  }

  /** The moments without the last point: each less the last point times the one before. */
  function Eliminated(y: seq<int>, x: int): (r: seq<int>)
    requires y != []
    ensures |r| == |y| - 1 && forall a :: 0 <= a < |r| ==> r[a] == y[a + 1] - x * y[a]
  {
    seq(|y| - 1, a requires 0 <= a < |y| - 1 => y[a + 1] - x * y[a])
  }

  /** Each weight divided by the distance of its point from `x`. */
  function Undistanced(p: int, xs: seq<int>, d: seq<int>, x: int): (r: seq<int>)
    requires Prime(p) && |xs| == |d|
    ensures |r| == |d| && forall i :: 0 <= i < |r| ==> r[i] == d[i] * Reciprocal(p, xs[i] - x)
  {
    seq(|d|, i requires 0 <= i < |d| => d[i] * Reciprocal(p, xs[i] - x))
  }

  /** Weights with the given moments. */
  function Solve(p: int, xs: seq<int>, y: seq<int>): (d: seq<int>)
    requires Prime(p) && |xs| == |y|
    ensures |d| == |xs|
  {
    if xs == [] then []
    else
      var n := |xs| - 1;
      var rest := Undistanced(p, xs[..n], Solve(p, xs[..n], Eliminated(y, xs[n])), xs[n]);
      rest + [y[0] - Sum(rest)]
  }

  /** Dividing by the distance and multiplying by it again. */
  lemma DistanceBack(p: int, xs: seq<int>, d: seq<int>, x: int)
    requires Prime(p) && |xs| == |d| && forall i :: 0 <= i < |xs| ==> !Eq(p, xs[i], x)
    ensures forall i :: 0 <= i < |d| ==> Eq(p, Distanced(xs, Undistanced(p, xs, d, x), x)[i], d[i])
  {
    forall i | 0 <= i < |d| ensures Eq(p, Distanced(xs, Undistanced(p, xs, d, x), x)[i], d[i]) {
      ReciprocalCancels(p, xs[i], x, d[i]);
    }
  }

  lemma ReciprocalCancels(p: int, a: int, b: int, d: int)
    requires Prime(p) && !Eq(p, a, b)
    ensures Eq(p, (a - b) * (d * Reciprocal(p, a - b)), d)
  {
    hide Reciprocal;
    var i := Reciprocal(p, a - b);
    FactorsAt(p, a, b, a);
    assert (a - b) * (d * i) == d * ((a - b) * i);
    SameEq(p, d);
    ProductEq(p, d, d, (a - b) * i, 1);
  }

  lemma LastDistance(xs: seq<int>, rest: seq<int>, last: int, a: nat)
    requires |xs| == |rest| + 1
    ensures var n := |rest|;
      Moment(xs, Distanced(xs, rest + [last], xs[n]), a)
      == Moment(xs[..n], Distanced(xs[..n], rest, xs[n]), a)
  {
    var n := |rest|;
    var e := Distanced(xs, rest + [last], xs[n]);
    assert e[..n] == Distanced(xs[..n], rest, xs[n]);
    assert e[n] == 0;
  }

  /** If the weights without the last point have their moments, the next moment is right when this one is. */
  lemma SolveStep(p: int, xs: seq<int>, y: seq<int>, less: seq<int>, a: nat)
    requires Prime(p) && |xs| == |y| == |less| + 1 && AllDistinct(p, xs) && 0 < a < |y|
    requires var n := |less|; Eq(p, Moment(xs[..n], less, a - 1), y[a] - xs[n] * y[a - 1])
    requires var n := |less|; var rest := Undistanced(p, xs[..n], less, xs[n]);
      Eq(p, Moment(xs, rest + [y[0] - Sum(rest)], a - 1), y[a - 1])
    ensures var n := |less|; var rest := Undistanced(p, xs[..n], less, xs[n]);
      Eq(p, Moment(xs, rest + [y[0] - Sum(rest)], a), y[a])
  {
    hide Eq, Moment, Reciprocal, AllDistinct, Undistanced, Distanced, Sum;
    var n := |less|;
    var x := xs[n];
    var rest := Undistanced(p, xs[..n], less, x);
    var d := rest + [y[0] - Sum(rest)];
    PrefixDistinct(p, xs);
    MomentShift(xs, d, x, a - 1);
    LastDistance(xs, rest, y[0] - Sum(rest), a - 1);
    DistanceBack(p, xs[..n], less, x);
    MomentEq(p, xs[..n], Distanced(xs[..n], rest, x), less, a - 1);
    NextMoment(p, Moment(xs, d, a), Moment(xs, d, a - 1), Moment(xs[..n], Distanced(xs[..n], rest, x), a - 1),
      Moment(xs[..n], less, a - 1), x, y[a - 1], y[a]);
  }

  lemma FirstMoment(p: int, xs: seq<int>, rest: seq<int>, y: int)
    requires p > 0 && |xs| == |rest| + 1
    ensures Eq(p, Moment(xs, rest + [y - Sum(rest)], 0), y)
  {
    var d := rest + [y - Sum(rest)];
    MomentZero(xs, d);
    assert d[..|rest|] == rest;
  }

  lemma SolveParts(p: int, xs: seq<int>, y: seq<int>)
    requires Prime(p) && |xs| == |y| > 0
    ensures var n := |xs| - 1; var less := Solve(p, xs[..n], Eliminated(y, xs[n]));
      var rest := Undistanced(p, xs[..n], less, xs[n]);
      Solve(p, xs, y) == rest + [y[0] - Sum(rest)]
  {
  }

  /** The weights that are computed have the moments that are asked for. */
  lemma {:induction false} SolveSolves(p: int, xs: seq<int>, y: seq<int>, a: nat)
    requires Prime(p) && |xs| == |y| && AllDistinct(p, xs) && a < |y|
    ensures Eq(p, Moment(xs, Solve(p, xs, y), a), y[a])
    decreases |xs|, a
  {
    hide Eq, Moment, Reciprocal, AllDistinct, Undistanced, Sum, Solve, Eliminated, Prime;
    var n := |xs| - 1;
    var less := Solve(p, xs[..n], Eliminated(y, xs[n]));
    SolveParts(p, xs, y);
    PrimeIsPositive(p);
    if a == 0 {
      FirstMoment(p, xs, Undistanced(p, xs[..n], less, xs[n]), y[0]);
    } else {
      SolveSolves(p, xs, y, a - 1);
      PrefixDistinct(p, xs);
      SolveSolves(p, xs[..n], Eliminated(y, xs[n]), a - 1);
      SolveStep(p, xs, y, less, a);
    }
  }

  lemma PrimeIsPositive(p: int)
    requires Prime(p)
    ensures p > 0
  {
  }

  lemma PrefixDistinct(p: int, xs: seq<int>)
    requires p > 0 && xs != [] && AllDistinct(p, xs)
    ensures var n := |xs| - 1; AllDistinct(p, xs[..n]) && forall i :: 0 <= i < n ==> !Eq(p, xs[..n][i], xs[n])
  {
  }

  lemma NextMoment(p: int, next: int, m: int, e: int, l: int, x: int, y: int, z: int)
    requires p > 0 && next - x * m == e && Eq(p, e, l) && Eq(p, l, z - x * y) && Eq(p, m, y)
    ensures Eq(p, next, z)
  {
    ProductEq(p, x, x, m, y);
    SumEq(p, e, z - x * y, x * m, x * y);
    assert e + x * m == next;
  }

  // The secrets of the chosen dealers.

  /** The secrets with the weights added at the chosen positions. */
  function AddAt(s: seq<int>, chosen: seq<nat>, d: seq<int>): (r: seq<int>)
    requires |chosen| == |d| && forall i :: 0 <= i < |chosen| ==> chosen[i] < |s|
    ensures |r| == |s|
  {
    var n := |chosen|;
    if n == 0 then s
    else
      var r := AddAt(s, chosen[..n - 1], d[..n - 1]);
      r[chosen[n - 1] := r[chosen[n - 1]] + d[n - 1]]
  }

  lemma {:induction false} AddedElsewhere(s: seq<int>, chosen: seq<nat>, d: seq<int>, i: nat)
    requires |chosen| == |d| && (forall j :: 0 <= j < |chosen| ==> chosen[j] < |s|) && i < |s| && i !in chosen
    ensures AddAt(s, chosen, d)[i] == s[i]
  {
    var n := |chosen|;
    if n > 0 {
      assert chosen == chosen[..n - 1] + [chosen[n - 1]];
      AddedElsewhere(s, chosen[..n - 1], d[..n - 1], i);
    }
  }

  lemma {:induction false} MomentUpdate(xs: seq<int>, s: seq<int>, i: nat, v: int, a: nat)
    requires |xs| == |s| && i < |s|
    ensures Moment(xs, s[i := s[i] + v], a) == Moment(xs, s, a) + Power(xs[i], a) * v
  {
    hide Power;
    var n, r := |xs|, s[i := s[i] + v];
    if i == n - 1 {
      assert r[..n - 1] == s[..n - 1];
      assert Power(xs[i], a) * (s[i] + v) == Power(xs[i], a) * s[i] + Power(xs[i], a) * v;
    } else {
      MomentUpdate(xs[..n - 1], s[..n - 1], i, v, a);
      assert r[..n - 1] == s[..n - 1][i := s[i] + v];
    }
  }

  lemma {:induction false} MomentAdded(xs: seq<int>, s: seq<int>, chosen: seq<nat>, d: seq<int>, a: nat)
    requires |xs| == |s| && |chosen| == |d| && forall i :: 0 <= i < |chosen| ==> chosen[i] < |s|
    ensures Moment(xs, AddAt(s, chosen, d), a) == Moment(xs, s, a) + Moment(Pick(xs, chosen), d, a)
  {
    hide Power;
    var n := |chosen|;
    if n > 0 {
      MomentAdded(xs, s, chosen[..n - 1], d[..n - 1], a);
      assert Pick(xs, chosen)[..n - 1] == Pick(xs, chosen[..n - 1]);
      MomentUpdate(xs, AddAt(s, chosen[..n - 1], d[..n - 1]), chosen[n - 1], d[n - 1], a);
    }
  }

  /** A row of the extraction matrix gives a moment of the secrets. */
  lemma {:induction false} RowIsMoment(p: int, points: seq<int>, row: seq<int>, b: nat, s: seq<int>)
    requires p > 0 && |points| == |row| == |s| && forall i :: 0 <= i < |row| ==> row[i] == Power(points[i], b) % p
    ensures Eq(p, Dot(row, s, |s|), Moment(points, s, b))
  {
    hide Eq, Power;
    var n := |s|;
    if n > 0 {
      RowIsMoment(p, points[..n - 1], row[..n - 1], b, s[..n - 1]);
      DotPrefix(row, s, n - 1, n - 1);
      Reduced(p, Power(points[n - 1], b));
      SameEq(p, s[n - 1]);
      ProductEq(p, row[n - 1], Power(points[n - 1], b), s[n - 1], s[n - 1]);
      SumEq(p, Dot(row, s, n - 1), Moment(points[..n - 1], s[..n - 1], b), row[n - 1] * s[n - 1],
        Power(points[n - 1], b) * s[n - 1]);
    } else {
      SameEq(p, 0);
    }
  }

  lemma {:induction false} DotPrefix(row: seq<int>, s: seq<int>, n: nat, m: nat)
    requires m <= n <= |row| && n <= |s|
    ensures Dot(row[..n], s[..n], m) == Dot(row, s, m)
    decreases m
  {
    if m > 0 { DotPrefix(row, s, n, m - 1); }
  }

  /** What the chosen dealers' secrets still have to contribute to the outputs. */
  function Missing(points: seq<int>, s: seq<int>, y: seq<int>): (r: seq<int>)
    requires |points| == |s|
    ensures |r| == |y| && forall b :: 0 <= b < |y| ==> r[b] == y[b] - Moment(points, s, b)
  {
    seq(|y|, b requires 0 <= b < |y| => y[b] - Moment(points, s, b))
  }

  /** The secrets: the other dealers' as they are, the chosen dealers' such that the outputs are `y`. */
  function Preimage(p: int, points: seq<int>, chosen: seq<nat>, s: seq<int>, y: seq<int>): (r: seq<int>)
    requires Prime(p) && |points| == |s| && |chosen| == |y| && forall i :: 0 <= i < |chosen| ==> chosen[i] < |points|
    ensures |r| == |s|
  {
    AddAt(s, chosen, Solve(p, Pick(points, chosen), Missing(points, s, y)))
  }

  /**
   * With distinct points, any `outputs` columns of the extraction matrix form a map onto all outputs:
   * whatever the secrets of the other dealers, every output vector is reached by secrets of the chosen
   * ones. As the map is injective as well, it is invertible.
   */
  lemma ExtractionIsOnto(p: int, points: seq<int>, chosen: seq<nat>, s: seq<int>, y: seq<int>)
    requires Prime(p) && AllDistinct(p, points) && |s| == |points| && |y| == |chosen| > 0
    requires forall i :: 0 <= i < |chosen| ==> chosen[i] < |points|
    requires forall i, j :: 0 <= i < j < |chosen| ==> chosen[i] != chosen[j]
    requires forall b :: 0 <= b < |y| ==> Canonical(p, y[b])
    ensures Extract(p, points, |chosen|, Preimage(p, points, chosen, s, y)) == y
    ensures forall i :: 0 <= i < |s| && i !in chosen ==> Preimage(p, points, chosen, s, y)[i] == s[i]
  {
    hide Eq, Moment, Solve, AllDistinct, AddAt;
    var xs, r := Pick(points, chosen), Preimage(p, points, chosen, s, y);
    var d := Solve(p, xs, Missing(points, s, y));
    ChosenDistinct(p, points, chosen);
    assert chosen[0] < |points|;
    forall b | 0 <= b < |y| ensures Extract(p, points, |chosen|, r)[b] == y[b] {
      RowIsMoment(p, points, ExtractionRows(p, points, |chosen|)[b], b, r);
      MomentAdded(points, s, chosen, d, b);
      SolveSolves(p, xs, Missing(points, s, y), b);
      OutputIs(p, Dot(ExtractionRows(p, points, |chosen|)[b], r, |r|), Moment(points, s, b), Moment(xs, d, b), y[b]);
    }
    forall i | 0 <= i < |s| && i !in chosen ensures r[i] == s[i] { AddedElsewhere(s, chosen, d, i); }
  }

  lemma OutputIs(p: int, out: int, m: int, e: int, y: int)
    requires p > 0 && Eq(p, out, m + e) && Eq(p, e, y - m) && Canonical(p, y)
    ensures out % p == y
  {
    SumEq(p, e, y - m, m, m);
    Reduced(p, y);
  }

  lemma ChosenDistinct(p: int, points: seq<int>, chosen: seq<nat>)
    requires p > 0 && AllDistinct(p, points) && forall i :: 0 <= i < |chosen| ==> chosen[i] < |points|
    requires forall i, j :: 0 <= i < j < |chosen| ==> chosen[i] != chosen[j]
    ensures AllDistinct(p, Pick(points, chosen))
  {
    forall i, j | 0 <= i < j < |chosen| ensures !Eq(p, points[chosen[i]], points[chosen[j]]) {
      NodesDiffer(p, points, chosen[i], chosen[j]);
    }
  }
}
