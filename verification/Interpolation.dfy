/** Evaluation and Lagrange interpolation over the field, as the loops that compute them. */
module Interpolation {
  import opened Wrappers
  import opened Zp
  import opened Polynomials

  datatype Error =
    | NotAllDifferentInterpolation(list: seq<int>)
    | EmptyCoefficients
    | EmptyInterpolation
    | LengthMismatch(nodes: nat, evaluations: nat)

  ghost predicate AllCanonical(p: int, s: seq<int>) {
    forall i :: 0 <= i < |s| ==> Canonical(p, s[i])
  }

  /** A polynomial over the field; its coefficient list is never empty. */
  class Polynomial {
    const p: int
    var coefficients: seq<int>

    ghost predicate Valid()
      reads this
    {
      p > 1 && coefficients != []
    }

    /** A polynomial of the given degree whose coefficients were drawn from a random source. */
    constructor Random(p: int, degree: nat, sampled: seq<int>)
      requires p > 1 && |sampled| == degree + 1
      ensures Valid() && this.p == p && coefficients == sampled
    {
      this.p, this.coefficients := p, sampled;
    }

    static method New(p: int, coef: seq<int>) returns (r: Result<Polynomial, Error>)
      requires p > 1
      ensures r.Ok? <==> coef != []
      ensures r.Err? ==> r.error == EmptyCoefficients
      ensures r.Ok? ==> fresh(r.value) && r.value.Valid() && r.value.p == p && r.value.coefficients == coef
    {
      if coef == [] { return Err(EmptyCoefficients); }
      var poly := new Polynomial.Random(p, |coef| - 1, coef);
      r := Ok(poly);
    }

    method SetConstantCoeff(value: int)
      requires Valid()
      modifies this
      ensures Valid() && Eval(coefficients, 0) == value
      ensures coefficients[1..] == old(coefficients)[1..] && |coefficients| == |old(coefficients)|
    {
      coefficients := coefficients[0 := value];
      AtZero(coefficients);
    }

    /** The loop evaluates from the highest coefficient down. */
    method Evaluate(value: int) returns (result: int)
      requires Valid()
      ensures result == Eval(coefficients, value) % p
    {
      var i := |coefficients| - 1;
      result := coefficients[i] % p;
      assert coefficients[i + 1..] == [];
      assert Eval(coefficients[i..], value) == coefficients[i];
      while i > 0
        invariant 0 <= i < |coefficients|
        invariant result == Eval(coefficients[i..], value) % p
      {
        i := i - 1;
        assert coefficients[i..][1..] == coefficients[i + 1..];
        HornerStep(p, coefficients[i], value, Eval(coefficients[i + 1..], value));
        result := Zp.Add(p, coefficients[i], Mul(p, result, value));
      }
    }
  }

  lemma HornerStep(p: int, c: int, x: int, v: int)
    requires p > 0
    ensures Zp.Add(p, c, Mul(p, v % p, x)) == (c + x * v) % p
  {
    Reduced(p, v);
    ProductEq(p, v % p, v, x, x);
    Reduced(p, (v % p) * x);
    SumEq(p, c, c, ((v % p) * x) % p, v * x);
  }

  /** The elements are pairwise different; found by filling a set. */
  method AllDifferent(p: int, list: seq<int>) returns (different: bool)
    requires p > 0 && AllCanonical(p, list)
    ensures different <==> AllDistinct(p, list)
  {
    if list == [] { return true; }
    var seen: set<int> := {};
    var i := 0;
    while i < |list|
      invariant i <= |list| && AllDistinct(p, list[..i])
      invariant forall x :: x in seen <==> exists j :: 0 <= j < i && list[j] == x
    {
      Reduced(p, list[i]);
      if list[i] in seen {
        var j :| 0 <= j < i && list[j] == list[i];
        assert Eq(p, list[j], list[i]);
        return false;
      }
      forall j | 0 <= j < i ensures !Eq(p, list[j], list[i]) {
        Reduced(p, list[j]);
        assert list[j] in seen;
      }
      seen := seen + {list[i]};
      i := i + 1;
    }
    assert list[..i] == list;
    different := true;
  }

  /** The inverse of `d` if it has one; zero otherwise. */
  function Reciprocal(p: int, d: int): int
    requires Prime(p)
  {
    if d % p == 0 then 0 else Inv(p, d % p)
  }

  /** The factor of the basis polynomial of `xj` that vanishes at `xm`. */
  function Factors(p: int, xj: int, xm: int): seq<int>
    requires Prime(p)
  {
    [-xm * Reciprocal(p, xj - xm), Reciprocal(p, xj - xm)]
  }

  /** The j-th Lagrange basis polynomial, of the first `m` nodes. */
  function BasisPoly(p: int, nodes: seq<int>, j: nat, m: nat): (r: seq<int>)
    requires Prime(p) && j < |nodes| && m <= |nodes|
    ensures |r| == if j < m then m else m + 1
  {
    if m == 0 then [1]
    else if m - 1 == j then BasisPoly(p, nodes, j, m - 1)
    else Times(Factors(p, nodes[j], nodes[m - 1]), BasisPoly(p, nodes, j, m - 1))
  }

  lemma FactorsAt(p: int, xj: int, xm: int, x: int)
    requires Prime(p)
    ensures Eval(Factors(p, xj, xm), x) == (x - xm) * Reciprocal(p, xj - xm)
    ensures Eval(Factors(p, xj, xm), xm) == 0
    ensures !Eq(p, xj, xm) ==> Eq(p, Eval(Factors(p, xj, xm), xj), 1)
  {
    var i, f := Reciprocal(p, xj - xm), Factors(p, xj, xm);
    hide Inv;
    forall y ensures Eval(f, y) == (y - xm) * i {
      assert f[1..] == [i] && Eval([i], y) == i + y * Eval([], y) == i;
      assert Eval(f, y) == -xm * i + y * i;
    }
    if !Eq(p, xj, xm) {
      DistinctDiffer(p, xj, xm);
      Reduced(p, xj - xm);
      Reduced(p, 0);
      InvIsInverse(p, (xj - xm) % p);
      ProductEq(p, (xj - xm) % p, xj - xm, i, i);
    }
  }

  lemma BasisFactor(p: int, nodes: seq<int>, j: nat, m: nat, x: int)
    requires Prime(p) && j < |nodes| && m < |nodes|
    ensures Eval(BasisPoly(p, nodes, j, m + 1), x) ==
            (if m == j then 1 else Eval(Factors(p, nodes[j], nodes[m]), x)) * Eval(BasisPoly(p, nodes, j, m), x)
  {
    EvalTimes(Factors(p, nodes[j], nodes[m]), BasisPoly(p, nodes, j, m), x);
  }

  lemma BasisStep(p: int, nodes: seq<int>, j: nat, m: nat, x: int)
    requires Prime(p) && j < |nodes| && m < |nodes| && m != j
    ensures Eval(BasisPoly(p, nodes, j, m + 1), x) ==
            (x - nodes[m]) * Reciprocal(p, nodes[j] - nodes[m]) * Eval(BasisPoly(p, nodes, j, m), x)
  {
    hide Eval, Factors, BasisPoly, Reciprocal;
    BasisFactor(p, nodes, j, m, x);
    FactorsAt(p, nodes[j], nodes[m], x);
  }

  lemma FactorTimes(p: int, f: int, b: int, v: int, w: int)
    requires p > 0 && (Eq(p, f, v) || v == 0 == f) && Eq(p, b, w)
    ensures Eq(p, f * b, v * w)
  {
    ProductEq(p, f, v, b, w);
  }

  lemma BasisBase(p: int, nodes: seq<int>, j: nat, x: int)
    requires Prime(p) && j < |nodes|
    ensures Eval(BasisPoly(p, nodes, j, 0), x) == 1
  {
    assert Eval([1], x) == 1 + x * Eval([], x);
  }

  /** The j-th basis polynomial is one at the j-th node. */
  lemma {:induction false} BasisOne(p: int, nodes: seq<int>, j: nat, m: nat)
    requires Prime(p) && j < |nodes| && m <= |nodes| && AllDistinct(p, nodes)
    ensures Eq(p, Eval(BasisPoly(p, nodes, j, m), nodes[j]), 1)
  {
    hide Eval, Factors, BasisPoly, Eq;
    if m == 0 {
      BasisBase(p, nodes, j, nodes[j]);
      Reduced(p, 1);
    } else {
      BasisOne(p, nodes, j, m - 1);
      BasisFactor(p, nodes, j, m - 1, nodes[j]);
      if m - 1 != j {
        NodesDiffer(p, nodes, j, m - 1);
        FactorsAt(p, nodes[j], nodes[m - 1], nodes[j]);
        FactorTimes(p, Eval(Factors(p, nodes[j], nodes[m - 1]), nodes[j]),
          Eval(BasisPoly(p, nodes, j, m - 1), nodes[j]), 1, 1);
      }
    }
  }

  lemma NodesDiffer(p: int, nodes: seq<int>, i: nat, j: nat)
    requires p > 0 && AllDistinct(p, nodes) && i < |nodes| && j < |nodes| && i != j
    ensures !Eq(p, nodes[i], nodes[j])
  {
    assert i < j ==> !Eq(p, nodes[i], nodes[j]);
    assert j < i ==> !Eq(p, nodes[j], nodes[i]);
  }

  /** And zero at every other. */
  lemma {:induction false} BasisZero(p: int, nodes: seq<int>, j: nat, m: nat, k: nat)
    requires Prime(p) && j < |nodes| && k < m <= |nodes| && k != j
    ensures Eval(BasisPoly(p, nodes, j, m), nodes[k]) == 0
  {
    hide Eval, Factors, BasisPoly;
    BasisFactor(p, nodes, j, m - 1, nodes[k]);
    if k == m - 1 {
      FactorsAt(p, nodes[j], nodes[k], nodes[k]);
    } else {
      BasisZero(p, nodes, j, m - 1, k);
    }
  }

  /** The Lagrange basis of the nodes, evaluated at `x`. */
  method ComputeLagrangeBasis(p: int, nodes: seq<int>, x: int) returns (r: Result<seq<int>, Error>)
    requires Prime(p) && AllCanonical(p, nodes)
    ensures r.Ok? <==> AllDistinct(p, nodes)
    ensures r.Err? ==> r.error == NotAllDifferentInterpolation(nodes)
    ensures r.Ok? ==> |r.value| == |nodes|
    ensures r.Ok? ==> forall j :: 0 <= j < |nodes| ==> r.value[j] == Eval(BasisPoly(p, nodes, j, |nodes|), x) % p
  {
    var different := AllDifferent(p, nodes);
    if !different { return Err(NotAllDifferentInterpolation(nodes)); }
    var lagrangeBasis := [];
    var j := 0;
    while j < |nodes|
      invariant j <= |nodes| == |nodes| && |lagrangeBasis| == j
      invariant forall i :: 0 <= i < j ==> lagrangeBasis[i] == Eval(BasisPoly(p, nodes, i, |nodes|), x) % p
    {
      var basis := BasisAtPoint(p, nodes, j, x);
      lagrangeBasis := lagrangeBasis + [basis];
      j := j + 1;
    }
    r := Ok(lagrangeBasis);
  }

  method BasisAtPoint(p: int, nodes: seq<int>, j: nat, x: int) returns (basis: int)
    requires Prime(p) && j < |nodes| && AllDistinct(p, nodes)
    ensures basis == Eval(BasisPoly(p, nodes, j, |nodes|), x) % p
  {
    basis := 1;
    var m := 0;
    BasisBase(p, nodes, j, x);
    Reduced(p, 1);
    while m < |nodes|
      invariant m <= |nodes| && basis == Eval(BasisPoly(p, nodes, j, m), x) % p
    {
      if m != j {
        var numerator, denominator := Sub(p, x, nodes[m]), Sub(p, nodes[j], nodes[m]);
        NodesDiffer(p, nodes, j, m);
        Denominator(p, nodes[j], nodes[m]);
        var term := Mul(p, numerator, Inverse(p, denominator).value);
        BasisStep(p, nodes, j, m, x);
        BasisTerm(p, x - nodes[m], Reciprocal(p, nodes[j] - nodes[m]), Eval(BasisPoly(p, nodes, j, m), x));
        basis := Mul(p, basis, term);
      }
      m := m + 1;
    }
  }

  lemma Denominator(p: int, a: int, b: int)
    requires Prime(p) && !Eq(p, a, b)
    ensures Canonical(p, Sub(p, a, b)) && Inverse(p, Sub(p, a, b)) == Some(Reciprocal(p, a - b))
  {
    DistinctDiffer(p, a, b);
    Reduced(p, 0);
    Reduced(p, a - b);
  }

  lemma BasisTerm(p: int, a: int, i: int, b: int)
    requires p > 0
    ensures Mul(p, b % p, Mul(p, a % p, i)) == (a * i * b) % p
  {
    Reduced(p, a);
    Reduced(p, b);
    Reduced(p, (a % p) * i);
    ProductEq(p, a % p, a, i, i);
    ProductEq(p, b % p, b, Mul(p, a % p, i), a * i);
    assert b * (a * i) == a * i * b;
  }

  /** The interpolating polynomial of the first `n` evaluations. */
  function Interpolant(p: int, nodes: seq<int>, evals: seq<int>, n: nat): (r: seq<int>)
    requires Prime(p) && n <= |nodes| == |evals|
    ensures |r| == if n == 0 then 0 else |nodes|
  {
    if n == 0 then []
    else Plus(Interpolant(p, nodes, evals, n - 1), Scale(evals[n - 1], BasisPoly(p, nodes, n - 1, |nodes|)))
  }

  lemma InterpolantStep(p: int, nodes: seq<int>, evals: seq<int>, n: nat, x: int)
    requires Prime(p) && n < |nodes| == |evals|
    ensures Eval(Interpolant(p, nodes, evals, n + 1), x) ==
            Eval(Interpolant(p, nodes, evals, n), x) + evals[n] * Eval(BasisPoly(p, nodes, n, |nodes|), x)
  {
    EvalPlus(Interpolant(p, nodes, evals, n), Scale(evals[n], BasisPoly(p, nodes, n, |nodes|)), x);
    EvalScale(evals[n], BasisPoly(p, nodes, n, |nodes|), x);
  }

  lemma SumStep(p: int, before: int, e: int, b: int, sum: int, delta: int)
    requires p > 0 && Eq(p, before, sum) && Eq(p, b, delta)
    ensures Eq(p, before + e * b, sum + e * delta)
  {
    ProductEq(p, e, e, b, delta);
    SumEq(p, before, sum, e * b, e * delta);
  }

  /** The interpolating polynomial takes the given values at the nodes. */
  lemma {:induction false} InterpolantAt(p: int, nodes: seq<int>, evals: seq<int>, n: nat, k: nat)
    requires Prime(p) && k < |nodes| == |evals| && n <= |nodes| && AllDistinct(p, nodes)
    ensures Eq(p, Eval(Interpolant(p, nodes, evals, n), nodes[k]), if k < n then evals[k] else 0)
  {
    hide Eval, Eq, Interpolant, BasisPoly, AllDistinct;
    if n == 0 {
      NoValueYet(p, nodes, evals, nodes[k]);
    } else {
      InterpolantAt(p, nodes, evals, n - 1, k);
      InterpolantStep(p, nodes, evals, n - 1, nodes[k]);
      var basis, before := Eval(BasisPoly(p, nodes, n - 1, |nodes|), nodes[k]),
        Eval(Interpolant(p, nodes, evals, n - 1), nodes[k]);
      if k == n - 1 {
        BasisOne(p, nodes, k, |nodes|);
        SumStep(p, before, evals[n - 1], basis, 0, 1);
      } else {
        BasisZero(p, nodes, n - 1, |nodes|, k);
        assert basis == 0;
      }
    }
  }

  lemma NoValueYet(p: int, nodes: seq<int>, evals: seq<int>, x: int)
    requires Prime(p) && |nodes| == |evals|
    ensures Eq(p, Eval(Interpolant(p, nodes, evals, 0), x), 0)
  {
  }

  /** The value at `x` of the polynomial through the points (alphas[i], evaluations[i]). */
  method InterpolatePolynomialAt(p: int, evaluations: seq<int>, alphas: seq<int>, x: int)
        returns (r: Result<int, Error>)
    requires Prime(p) && AllCanonical(p, alphas)
    ensures r == InterpolateAt(p, evaluations, alphas, x)
  {
    hide Eval, Interpolant, BasisPoly, Eq, Zp.Add, Mul;
    if alphas == [] { return Err(EmptyInterpolation); }
    if |alphas| != |evaluations| { return Err(LengthMismatch(|alphas|, |evaluations|)); }
    var basis := ComputeLagrangeBasis(p, alphas, x);
    if basis.Err? { return Err(basis.error); }
    var interpolation, i := 0, 0;
    NothingYet(p, alphas, evaluations, x);
    while i < |evaluations|
      invariant i <= |evaluations| && interpolation == Eval(Interpolant(p, alphas, evaluations, i), x) % p
    {
      InterpolantStep(p, alphas, evaluations, i, x);
      InterpolationTerm(p, Eval(Interpolant(p, alphas, evaluations, i), x), evaluations[i],
        Eval(BasisPoly(p, alphas, i, |alphas|), x));
      interpolation := Zp.Add(p, interpolation, Mul(p, evaluations[i], basis.value[i]));
      i := i + 1;
    }
    r := Ok(interpolation);
  }

  lemma NothingYet(p: int, nodes: seq<int>, evals: seq<int>, x: int)
    requires Prime(p) && |nodes| == |evals|
    ensures Eval(Interpolant(p, nodes, evals, 0), x) % p == 0
  {
    Reduced(p, 0);
  }

  lemma InterpolationTerm(p: int, a: int, e: int, b: int)
    requires p > 0
    ensures Zp.Add(p, a % p, Mul(p, e, b % p)) == (a + e * b) % p
  {
    Reduced(p, a);
    Reduced(p, b);
    Reduced(p, e * (b % p));
    ProductEq(p, e, e, b % p, b);
    SumEq(p, a % p, a, (e * (b % p)) % p, e * b);
  }

  /** What interpolation returns, errors included. */
  ghost function InterpolateAt(p: int, evaluations: seq<int>, alphas: seq<int>, x: int): Result<int, Error>
    requires Prime(p)
  {
    if alphas == [] then Err(EmptyInterpolation)
    else if |alphas| != |evaluations| then Err(LengthMismatch(|alphas|, |evaluations|))
    else if !AllDistinct(p, alphas) then Err(NotAllDifferentInterpolation(alphas))
    else Ok(Eval(Interpolant(p, alphas, evaluations, |alphas|), x) % p)
  }

  /**
   * Interpolation inverts evaluation: from the values of a polynomial at distinct nodes, at least as
   * many as it has coefficients, it gives the polynomial's value anywhere.
   */
  lemma InterpolationIsExact(p: int, f: seq<int>, evaluations: seq<int>, alphas: seq<int>, x: int)
    requires Prime(p) && AllDistinct(p, alphas) && 0 < |alphas| == |evaluations| && |f| <= |alphas|
    requires forall i :: 0 <= i < |alphas| ==> Eq(p, evaluations[i], Eval(f, alphas[i]))
    ensures InterpolateAt(p, evaluations, alphas, x) == Ok(Eval(f, x) % p)
  {
    var g := Interpolant(p, alphas, evaluations, |alphas|);
    forall i | 0 <= i < |alphas| ensures Eq(p, Eval(f, alphas[i]), Eval(g, alphas[i])) {
      InterpolantAt(p, alphas, evaluations, |alphas|, i);
    }
    AgreeEverywhere(p, f, g, alphas, x);
  }
}
