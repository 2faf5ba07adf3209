/** Feldman's verifiable secret sharing over the curve, taken as a cyclic group of the scalars' order. */
module Feldman {
  import opened Wrappers
  import opened Zp
  import opened Polynomials
  import opened Interpolation
  import opened Shamir
  import opened Powers
  import opened Naf
  import opened Groups

  /** The order of the group and the modulus of the scalars. */
  const ORDER: int := MODULUS as int

  datatype FeldmanShare<G> = FeldmanShare(shamir: Share, commitments: seq<G>)

  datatype FeldmanError = LengthMismatch(parties: nat, shares: nat) | InvalidShare(party: int)
    | Reconstruction(cause: ShareError)

  /** The points are a cyclic group, generated by `gen`, of order `ORDER`. */
  ghost predicate Cyclic<G(!new)>(c: Curve<G>) {
    && Lawful(c)
    && (forall k, m :: SameMultiple(c, k, m))
    && (forall x :: c.onCurve(x) ==> HasLog(c, x))
  }

  ghost predicate SameMultiple<G(!new)>(c: Curve<G>, k: int, m: int) {
    Multiple(c, k, c.gen) == Multiple(c, m, c.gen) <==> Eq(ORDER, k, m)
  }

  ghost predicate HasLog<G(!new)>(c: Curve<G>, x: G) {
    exists k :: x == Multiple(c, k, c.gen)
  }

  /** The commitments commit to these coefficients. */
  ghost predicate Commits<G(!new)>(c: Curve<G>, coefs: seq<int>, commitments: seq<G>) {
    |coefs| == |commitments| && forall k :: 0 <= k < |coefs| ==> commitments[k] == Multiple(c, coefs[k], c.gen)
  }

  /** The combination of the first `n` commitments with the powers of the owner's point. */
  ghost function Combined<G(!new)>(c: Curve<G>, commitments: seq<G>, owner: int, n: nat): G
    requires n <= |commitments|
  {
    if n == 0 then c.zero
    else c.add(Combined(c, commitments, owner, n - 1), Multiple(c, Power(owner, n - 1) % ORDER, commitments[n - 1]))
  }

  lemma NoneCombined<G(!new)>(c: Curve<G>, commitments: seq<G>, owner: int)
    ensures Combined(c, commitments, owner, 0) == c.zero
  {
  }

  lemma OneMoreCombined<G(!new)>(c: Curve<G>, commitments: seq<G>, owner: int, n: nat)
    requires n < |commitments|
    ensures Combined(c, commitments, owner, n + 1) ==
      c.add(Combined(c, commitments, owner, n), Multiple(c, Power(owner, n) % ORDER, commitments[n]))
  {
  }

  /** What verification decides. */
  ghost predicate Verifies<G(!new)>(c: Curve<G>, share: FeldmanShare<G>, owner: int) {
    && |share.commitments| == share.shamir.degree + 1
    && (forall k :: 0 <= k < |share.commitments| ==> c.onCurve(share.commitments[k]))
    && Combined(c, share.commitments, owner, |share.commitments|) == Multiple(c, share.shamir.share, c.gen)
  }

  /** The verification loop. */
  method IsValid<G(==, !new)>(c: Curve<G>, share: FeldmanShare<G>, owner: int) returns (valid: bool)
    requires Lawful(c) && Canonical(ORDER, owner) && Canonical(ORDER, share.shamir.share)
    requires |share.commitments| <= 0x1_0000_0000_0000_0000
    ensures valid <==> Verifies(c, share, owner)
  {
    hide Lawful, Multiple, Power, Combined;
    if |share.commitments| != share.shamir.degree + 1 { return false; }
    if !(forall k :: 0 <= k < |share.commitments| ==> c.onCurve(share.commitments[k])) { return false; }
    var innerProd := c.zero;
    ZeroTimes(c, c.gen);
    NoneCombined(c, share.commitments, owner);
    var exp: nat := 0;
    while exp < |share.commitments|
      invariant exp <= |share.commitments| && innerProd == Combined(c, share.commitments, owner, exp)
    {
      var power := Pow(ORDER, owner, exp);
      Reduced(ORDER, Power(owner, exp));
      var term := ScalarMul(c, share.commitments[exp], power as u256);
      OneMoreCombined(c, share.commitments, owner, exp);
      innerProd := c.add(innerProd, term);
      exp := exp + 1;
    }
    GenOnCurve(c);
    var expected := ScalarMul(c, c.gen, share.shamir.share as u256);
    valid := innerProd == expected;
  }

  lemma GenOnCurve<G(!new)>(c: Curve<G>)
    requires Lawful(c)
    ensures c.onCurve(c.gen)
  {
  }

  lemma {:induction false} EvalLast(f: seq<int>, n: nat, x: int)
    requires n < |f|
    ensures Eval(f[..n + 1], x) == Eval(f[..n], x) + f[n] * Power(x, n)
  {
    if n == 0 {
      assert f[..1][1..] == [] && f[..0] == [];
    } else {
      EvalLast(f[1..], n - 1, x);
      assert f[..n + 1][1..] == f[1..][..n] && f[..n][1..] == f[1..][..n - 1];
      assert x * (f[n] * Power(x, n - 1)) == f[n] * (x * Power(x, n - 1));
      Distribute(x, Eval(f[1..][..n - 1], x), f[n] * Power(x, n - 1));
    }
  }

  /** Scalars that are the same element give the same multiple of the generator. */
  lemma SameScalar<G(!new)>(c: Curve<G>, k: int, m: int)
    requires Cyclic(c)
    ensures Multiple(c, k, c.gen) == Multiple(c, m, c.gen) <==> Eq(ORDER, k, m)
  {
    assert SameMultiple(c, k, m);
  }

  lemma CommittedTerm<G(!new)>(c: Curve<G>, power: int, coef: int)
    requires Cyclic(c)
    ensures Multiple(c, power % ORDER, Multiple(c, coef, c.gen)) == Multiple(c, coef * power, c.gen)
  {
    hide Multiple;
    TimesProduct(c, power % ORDER, coef, c.gen);
    Reduced(ORDER, power);
    ProductEq(ORDER, power % ORDER, power, coef, coef);
    SameScalar(c, power % ORDER * coef, coef * power);
  }

  /** The combined commitments are the generator times the committed polynomial's value. */
  lemma {:induction false} CombinedIsValue<G(!new)>(c: Curve<G>, coefs: seq<int>, commitments: seq<G>, owner: int,
        n: nat)
    requires Cyclic(c) && Commits(c, coefs, commitments) && n <= |coefs|
    ensures Combined(c, commitments, owner, n) == Multiple(c, Eval(coefs[..n], owner), c.gen)
  {
    hide Cyclic, Eval, Power;
    LawfulCyclic(c);
    hide Lawful;
    if n == 0 {
      ZeroTimes(c, c.gen);
      EvalNothing(coefs, owner);
    } else {
      CombinedIsValue(c, coefs, commitments, owner, n - 1);
      CommittedTerm(c, Power(owner, n - 1), coefs[n - 1]);
      EvalLast(coefs, n - 1, owner);
      TimesSum(c, Eval(coefs[..n - 1], owner), coefs[n - 1] * Power(owner, n - 1), c.gen);
    }
  }

  lemma EvalNothing(f: seq<int>, x: int)
    ensures Eval(f[..0], x) == 0
  {
  }

  lemma LawfulCyclic<G(!new)>(c: Curve<G>)
    requires Cyclic(c)
    ensures Lawful(c) && c.onCurve(c.gen)
  {
  }

  lemma CommitsOnCurve<G(!new)>(c: Curve<G>, coefs: seq<int>, commitments: seq<G>)
    requires Cyclic(c) && Commits(c, coefs, commitments)
    ensures forall k :: 0 <= k < |commitments| ==> c.onCurve(commitments[k])
  {
    hide Multiple;
    forall k | 0 <= k < |commitments| ensures c.onCurve(commitments[k]) {
      TimesOnCurve(c, coefs[k], c.gen);
    }
  }

  /**
   * Verification is exact: a share verifies against commitments to a polynomial if and only if it has
   * the polynomial's degree and is the polynomial's value at its owner.
   */
  lemma VerifiesExactly<G(!new)>(c: Curve<G>, coefs: seq<int>, share: FeldmanShare<G>, owner: int)
    requires Cyclic(c) && Commits(c, coefs, share.commitments)
    ensures Verifies(c, share, owner) <==> ShareOf(ORDER, coefs, owner, share.shamir)
  {
    hide Cyclic, Eval, Eq, Multiple, Combined;
    CommitsOnCurve(c, coefs, share.commitments);
    CombinedIsValue(c, coefs, share.commitments, owner, |coefs|);
    assert coefs[..|coefs|] == coefs;
    SameScalar(c, Eval(coefs, owner), share.shamir.share);
    Symmetric(Eval(coefs, owner), share.shamir.share);
  }

  lemma Symmetric(a: int, b: int)
    ensures Eq(ORDER, a, b) <==> Eq(ORDER, b, a)
  {
  }

  /** Any points of the curve commit to some coefficients. */
  lemma {:induction false} SomethingCommitted<G(!new)>(c: Curve<G>, commitments: seq<G>) returns (coefs: seq<int>)
    requires Cyclic(c) && forall k :: 0 <= k < |commitments| ==> c.onCurve(commitments[k])
    ensures Commits(c, coefs, commitments)
  {
    hide Multiple;
    if commitments == [] {
      coefs := [];
    } else {
      var rest := SomethingCommitted(c, commitments[1..]);
      assert HasLog(c, commitments[0]);
      var k :| commitments[0] == Multiple(c, k, c.gen);
      coefs := [k] + rest;
    }
  }

  /**
   * Whatever it comes with, a share verifies if and only if its commitments commit to a polynomial of
   * which it is a share at its owner. In particular all of them are points of the curve.
   */
  lemma VerifiesOnlyShares<G(!new)>(c: Curve<G>, share: FeldmanShare<G>, owner: int)
    requires Cyclic(c)
    ensures Verifies(c, share, owner) <==>
      exists coefs :: Commits(c, coefs, share.commitments) && ShareOf(ORDER, coefs, owner, share.shamir)
  {
    hide Cyclic, Commits, ShareOf, Combined, Multiple;
    if Verifies(c, share, owner) {
      var coefs := SomethingCommitted(c, share.commitments);
      VerifiesExactly(c, coefs, share, owner);
    }
    hide Verifies;
    if exists coefs :: Commits(c, coefs, share.commitments) && ShareOf(ORDER, coefs, owner, share.shamir) {
      var coefs :| Commits(c, coefs, share.commitments) && ShareOf(ORDER, coefs, owner, share.shamir);
      VerifiesExactly(c, coefs, share, owner);
    }
  }

  /** Deals a secret: the Shamir shares, each with commitments to all coefficients. */
  method SharesFromSecret<G(==, !new)>(c: Curve<G>, secret: int, degree: nat, owners: seq<int>, sampled: seq<int>)
    returns (shares: seq<FeldmanShare<G>>)
    requires Cyclic(c) && |sampled| == degree + 1 && Canonical(ORDER, secret)
    requires forall i :: 0 <= i < |sampled| ==> Canonical(ORDER, sampled[i])
    ensures |shares| == |owners|
    ensures forall i :: 0 <= i < |shares| ==>
      Commits(c, sampled[0 := secret], shares[i].commitments)
      && Verifies(c, shares[i], owners[i])
  {
    hide Cyclic, Multiple, Eval, Combined, Verifies;
    LawfulCyclic(c);
    hide Lawful;
    var shamirShares, polynomial := Shamir.SharesFromSecret(ORDER, secret, degree, owners, sampled);
    ghost var coefs := sampled[0 := secret];
    var commitments: seq<G> := [];
    var k := 0;
    while k < |polynomial.coefficients|
      invariant k <= |polynomial.coefficients| && polynomial.coefficients == coefs && |commitments| == k
      invariant forall j :: 0 <= j < k ==> commitments[j] == Multiple(c, coefs[j], c.gen)
    {
      var commitment := ScalarMul(c, c.gen, polynomial.coefficients[k] as u256);
      commitments := commitments + [commitment];
      k := k + 1;
    }
    shares := seq(|shamirShares|, i requires 0 <= i < |shamirShares| => FeldmanShare(shamirShares[i], commitments));
    forall i | 0 <= i < |shares| ensures Verifies(c, shares[i], owners[i]) {
      VerifiesExactly(c, coefs, shares[i], owners[i]);
    }
  }

  function ShamirParts<G>(shares: seq<FeldmanShare<G>>): (r: seq<Share>)
    ensures |r| == |shares| && forall i :: 0 <= i < |r| ==> r[i] == shares[i].shamir
  {
    seq(|shares|, i requires 0 <= i < |shares| => shares[i].shamir)
  }

  /** The i-th share is the first that does not verify. */
  ghost predicate FirstInvalid<G(!new)>(c: Curve<G>, shares: seq<FeldmanShare<G>>, owners: seq<int>, i: nat)
    requires i < |shares| == |owners|
  {
    !Verifies(c, shares[i], owners[i]) && forall j :: 0 <= j < i ==> Verifies(c, shares[j], owners[j])
  }

  /** Recovers the secret, provided every share verifies at its owner. */
  method SecretFromShares<G(==, !new)>(c: Curve<G>, shares: seq<FeldmanShare<G>>, owners: seq<int>)
        returns (r: Result<int, FeldmanError>)
    requires Lawful(c) && Prime(ORDER) && AllCanonical(ORDER, owners)
    requires forall i :: 0 <= i < |shares| ==>
      Canonical(ORDER, shares[i].shamir.share)
      && |shares[i].commitments| <= 0x1_0000_0000_0000_0000
    ensures |shares| != |owners| ==> r == Err(FeldmanError.LengthMismatch(|owners|, |shares|))
    ensures |shares| == |owners| && !(forall i :: 0 <= i < |shares| ==> Verifies(c, shares[i], owners[i])) ==>
      exists i :: 0 <= i < |shares| && FirstInvalid(c, shares, owners, i) && r == Err(InvalidShare(owners[i]))
    ensures |shares| == |owners| && (forall i :: 0 <= i < |shares| ==> Verifies(c, shares[i], owners[i])) ==>
      r == match Reconstruct(ORDER, ShamirParts(shares), owners)
        case Ok(s) => Ok(s)
        case Err(e) => Err(Reconstruction(e))
  {
    hide Lawful, Verifies, Prime, Reconstruct;
    if |shares| != |owners| { return Err(FeldmanError.LengthMismatch(|owners|, |shares|)); }
    var i := 0;
    while i < |shares|
      invariant i <= |shares| && forall j :: 0 <= j < i ==> Verifies(c, shares[j], owners[j])
    {
      var valid := IsValid(c, shares[i], owners[i]);
      if !valid {
        assert FirstInvalid(c, shares, owners, i);
        return Err(InvalidShare(owners[i]));
      }
      i := i + 1;
    }
    var secret := Shamir.SecretFromShares(ORDER, ShamirParts(shares), owners);
    r := match secret case Ok(s) => Ok(s) case Err(e) => Err(Reconstruction(e));
  }

  /** Verified shares with the same commitments and distinct owners, enough of them, give the committed secret. */
  lemma VerifiedSharesReconstruct<G(!new)>(c: Curve<G>, coefs: seq<int>, commitments: seq<G>,
        shares: seq<FeldmanShare<G>>, owners: seq<int>)
    requires Cyclic(c) && Prime(ORDER) && Commits(c, coefs, commitments)
    requires |shares| == |owners| && AllDistinct(ORDER, owners) && 0 < |commitments| <= |shares|
    requires forall i :: 0 <= i < |shares| ==> shares[i].commitments == commitments && Verifies(c, shares[i], owners[i])
    ensures Reconstruct(ORDER, ShamirParts(shares), owners) == Ok(coefs[0] % ORDER)
  {
    hide Cyclic, Prime, Eval, Eq, Verifies, Reconstruct;
    forall i | 0 <= i < |shares| ensures ShareOf(ORDER, coefs, owners[i], ShamirParts(shares)[i]) {
      VerifiesExactly(c, coefs, shares[i], owners[i]);
    }
    ReconstructionIsExact(ORDER, coefs, owners, ShamirParts(shares));
    AtZero(coefs);
  }
}
