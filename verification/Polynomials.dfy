/**
 * Polynomials as lists of coefficients, lowest degree first. They are integer polynomials; the field
 * enters where their values are compared modulo the prime.
 */
module Polynomials {
  import opened Zp

  function Eval(f: seq<int>, x: int): int {
    if f == [] then 0 else f[0] + x * Eval(f[1..], x)
  }

  function Plus(f: seq<int>, g: seq<int>): (r: seq<int>)
    ensures |r| == if |f| < |g| then |g| else |f|
  {
    if f == [] then g
    else if g == [] then f
    else [f[0] + g[0]] + Plus(f[1..], g[1..])
  }

  function Scale(k: int, f: seq<int>): (r: seq<int>)
    ensures |r| == |f|
  {
    if f == [] then [] else [k * f[0]] + Scale(k, f[1..])
  }

  function Times(f: seq<int>, g: seq<int>): (r: seq<int>)
    ensures |r| == if f == [] then 0 else if g == [] then |f| else |f| + |g| - 1
  {
    if f == [] then []
    else if |f| == 1 then if g == [] then [0] else Scale(f[0], g)
    else Plus(Scale(f[0], g), [0] + Times(f[1..], g))
  }

  lemma {:induction false} EvalPlus(f: seq<int>, g: seq<int>, x: int)
    ensures Eval(Plus(f, g), x) == Eval(f, x) + Eval(g, x)
  {
    if f != [] && g != [] {
      EvalPlus(f[1..], g[1..], x);
      assert Plus(f, g)[1..] == Plus(f[1..], g[1..]);
      Distribute(x, Eval(f[1..], x), Eval(g[1..], x));
    }
  }

  lemma Distribute(x: int, a: int, b: int)
    ensures x * (a + b) == x * a + x * b
  {
  }

  lemma {:induction false} EvalScale(k: int, f: seq<int>, x: int)
    ensures Eval(Scale(k, f), x) == k * Eval(f, x)
  {
    if f != [] {
      EvalScale(k, f[1..], x);
      assert Scale(k, f)[1..] == Scale(k, f[1..]);
      Distribute(k, f[0], x * Eval(f[1..], x));
      Swap(x, k, Eval(f[1..], x));
    }
  }

  lemma Swap(x: int, k: int, v: int)
    ensures x * (k * v) == k * (x * v)
  {
  }

  lemma {:induction false} EvalTimes(f: seq<int>, g: seq<int>, x: int)
    ensures Eval(Times(f, g), x) == Eval(f, x) * Eval(g, x)
  {
    if f != [] {
      EvalScale(f[0], g, x);
      assert Eval(f[1..], x) == 0 || |f| > 1;
      if |f| > 1 {
        EvalTimes(f[1..], g, x);
        var rest := Times(f[1..], g);
        assert ([0] + rest)[1..] == rest;
        EvalPlus(Scale(f[0], g), [0] + rest, x);
        Factor(f[0], x, Eval(f[1..], x), Eval(g, x));
      }
    }
  }

  lemma Factor(a: int, x: int, b: int, c: int)
    ensures (a + x * b) * c == a * c + x * (b * c)
  {
  }

  lemma AtZero(f: seq<int>)
    requires f != []
    ensures Eval(f, 0) == f[0]
  {
  }

  /** The quotient of `f` by X - a. */
  function Quotient(f: seq<int>, a: int): (q: seq<int>)
    ensures |q| == if f == [] then 0 else |f| - 1
  {
    if |f| <= 1 then [] else [Eval(f[1..], a)] + Quotient(f[1..], a)
  }

  /** The remainder of `f` by X - a is its value at a. */
  lemma {:induction false} Division(f: seq<int>, a: int, x: int)
    ensures Eval(f, x) == Eval(f, a) + (x - a) * Eval(Quotient(f, a), x)
  {
    if |f| > 1 {
      var h := f[1..];
      Division(h, a, x);
      assert Quotient(f, a)[1..] == Quotient(h, a);
      Horner(x, a, Eval(h, a), Eval(Quotient(h, a), x), Eval(h, x));
    } else if |f| == 1 {
      assert Eval(f[1..], x) == 0 == Eval(f[1..], a);
    }
  }

  lemma Horner(x: int, a: int, ha: int, q: int, hx: int)
    requires hx == ha + (x - a) * q
    ensures x * hx == a * ha + (x - a) * (ha + x * q)
  {
    assert x * hx == x * ha + x * ((x - a) * q);
    assert (x - a) * (ha + x * q) == x * ha - a * ha + (x - a) * (x * q);
    Swap(x, x - a, q);
  }

  /** Pairwise different elements of the field. */
  predicate AllDistinct(p: int, nodes: seq<int>)
    requires p > 0
  {
    forall i, j :: 0 <= i < j < |nodes| ==> !Eq(p, nodes[i], nodes[j])
  }

  ghost predicate Vanishes(p: int, f: seq<int>, nodes: seq<int>)
    requires p > 0
  {
    forall i :: 0 <= i < |nodes| ==> Eq(p, Eval(f, nodes[i]), 0)
  }

  /** A polynomial with as many roots as coefficients is zero everywhere. */
  lemma {:induction false} TooManyRoots(p: int, f: seq<int>, nodes: seq<int>, x: int)
    requires Prime(p) && AllDistinct(p, nodes) && Vanishes(p, f, nodes) && |f| <= |nodes|
    ensures Eq(p, Eval(f, x), 0)
    decreases |f|
  {
    if f != [] {
      var a, rest, q := nodes[0], nodes[1..], Quotient(f, nodes[0]);
      forall i | 0 <= i < |rest| ensures Eq(p, Eval(q, rest[i]), 0) {
        RootOfQuotient(p, f, a, nodes[i + 1]);
      }
      forall i, j | 0 <= i < j < |rest| ensures !Eq(p, rest[i], rest[j]) {
        assert rest[i] == nodes[i + 1] && rest[j] == nodes[j + 1];
      }
      TooManyRoots(p, q, rest, x);
      Division(f, a, x);
      ProductEq(p, x - a, x - a, Eval(q, x), 0);
      SumEq(p, Eval(f, a), 0, (x - a) * Eval(q, x), 0);
    }
  }

  /** Another root of `f` is a root of the quotient. */
  lemma RootOfQuotient(p: int, f: seq<int>, a: int, b: int)
    requires Prime(p) && Eq(p, Eval(f, a), 0) && Eq(p, Eval(f, b), 0) && !Eq(p, a, b)
    ensures Eq(p, Eval(Quotient(f, a), b), 0)
  {
    Division(f, a, b);
    SumEq(p, Eval(f, b), 0, Eval(f, a), 0);
    DistinctDiffer(p, b, a);
    Cancel(p, b - a, Eval(Quotient(f, a), b));
  }

  /** The two polynomials have the same values at the nodes. */
  ghost predicate Agree(p: int, f: seq<int>, g: seq<int>, nodes: seq<int>)
    requires p > 0
  {
    forall i :: 0 <= i < |nodes| ==> Eq(p, Eval(f, nodes[i]), Eval(g, nodes[i]))
  }

  /** Polynomials that agree at as many nodes as they have coefficients agree everywhere. */
  lemma AgreeEverywhere(p: int, f: seq<int>, g: seq<int>, nodes: seq<int>, x: int)
    requires Prime(p) && AllDistinct(p, nodes) && Agree(p, f, g, nodes)
    requires |f| <= |nodes| && |g| <= |nodes|
    ensures Eq(p, Eval(f, x), Eval(g, x))
  {
    hide Eval, Eq;
    var d := Plus(f, Scale(-1, g));
    Difference(f, g, x);
    forall i | 0 <= i < |nodes| ensures Eq(p, Eval(d, nodes[i]), 0) {
      Difference(f, g, nodes[i]);
      DistinctDiffer(p, Eval(f, nodes[i]), Eval(g, nodes[i]));
    }
    TooManyRoots(p, d, nodes, x);
    DistinctDiffer(p, Eval(f, x), Eval(g, x));
  }

  lemma Difference(f: seq<int>, g: seq<int>, x: int)
    ensures Eval(Plus(f, Scale(-1, g)), x) == Eval(f, x) - Eval(g, x)
  {
    EvalPlus(f, Scale(-1, g), x);
    EvalScale(-1, g, x);
  }
}
