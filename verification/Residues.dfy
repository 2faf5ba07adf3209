/** The integers modulo the order of the curve, under addition: a group such as the curve is taken to be. */
module Residues {
  import opened Zp
  import opened Groups
  import opened Feldman

  function Residues(m: int): Curve<int>
    requires m > 1
  {
    Curve(0, 1, (x: int, y: int) => Add(m, x, y), (x: int) => Add(m, x, x), (x: int) => Sub(m, 0, x), (x: int) =>
      Canonical(m, x))
  }

  lemma ResiduesAreLawful(m: int)
    requires m > 1
    ensures Lawful(Residues(m))
  {
    var c := Residues(m);
    forall x: int, y: int ensures Closed(c, x, y) && Commutes(c, x, y) { SumLaws(m, x, y, 0); }
    forall x: int, y: int, z: int ensures Associates(c, x, y, z) { SumLaws(m, x, y, z); }
    forall x: int ensures Units(c, x) { SumLaws(m, x, 0, 0); }
  }

  lemma NextResidue(m: int, n: int)
    requires m > 1
    ensures Add(m, (n - 1) % m, 1) == n % m && Add(m, (n + 1) % m, Sub(m, 0, 1)) == n % m
  {
    Reduced(m, n - 1);
    Reduced(m, n + 1);
    Reduced(m, -1);
    SumEq(m, (n - 1) % m, n - 1, 1, 1);
    SumEq(m, (n + 1) % m, n + 1, (0 - 1) % m, -1);
  }

  lemma NextMultiple(c: Curve<int>, n: int, x: int)
    ensures Multiple(c, n, x) ==
      if n == 0 then c.zero
      else if n > 0 then c.add(Multiple(c, n - 1, x), x)
      else c.add(Multiple(c, n + 1, x), c.negate(x))
  {
  }

  /** The n-th multiple of one is the residue of n. */
  lemma {:induction false} MultiplesOfOne(m: int, n: int)
    requires m > 1
    ensures Multiple(Residues(m), n, 1) == n % m
    decreases if n < 0 then -n else n
  {
    hide Add, Sub, Multiple;
    NextResidue(m, n);
    NextMultiple(Residues(m), n, 1);
    if n > 0 {
      MultiplesOfOne(m, n - 1);
    } else if n < 0 {
      MultiplesOfOne(m, n + 1);
    } else {
      Reduced(m, 0);
    }
  }

  /** So what is assumed of the curve can be met: there is a lawful cyclic group of this order. */
  lemma ACyclicGroup()
    ensures Cyclic(Residues(ORDER))
  {
    hide Lawful, Multiple;
    var c := Residues(ORDER);
    ResiduesAreLawful(ORDER);
    forall k: int, n: int ensures SameMultiple(c, k, n) {
      MultiplesOfOne(ORDER, k);
      MultiplesOfOne(ORDER, n);
    }
    forall x: int | c.onCurve(x) ensures HasLog(c, x) {
      MultiplesOfOne(ORDER, x);
      assert x == Multiple(c, x, c.gen);
    }
  }
}
