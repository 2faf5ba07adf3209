/** Shamir secret sharing: dealing, share arithmetic, reconstruction. */
module Shamir {
  import opened Wrappers
  import opened SimTypes
  import opened Zp
  import opened Polynomials
  import opened Interpolation

  datatype Share = Share(share: int, degree: nat)

  datatype ShareError =
    | NotEnoughShares
    | SharesWithDifferentDegree
    | ReconstructionError(cause: Interpolation.Error)
    | EvalAndShareLenMismatch(nEvalPoints: nat, nShares: nat)
    | InvalidThreshold(threshold: nat, nParties: nat)

  /** The field element a party evaluates at. */
  function EncodeParty(p: int, party: PartyId): int
    requires p > 0
  {
    (party + 1) % p
  }

  function EncodeAll(p: int, parties: seq<PartyId>): (r: seq<int>)
    requires p > 0
    ensures |r| == |parties| && forall i :: 0 <= i < |r| ==> r[i] == EncodeParty(p, parties[i])
  {
    seq(|parties|, i requires 0 <= i < |parties| => EncodeParty(p, parties[i]))
  }

  // Share arithmetic. The degree is that of the left operand, and products add the degrees.

  function AddShare(p: int, a: Share, b: Share): Share
    requires p > 0
  {
    Share(Zp.Add(p, a.share, b.share), a.degree)
  }

  function SubShare(p: int, a: Share, b: Share): Share
    requires p > 0
  {
    Share(Sub(p, a.share, b.share), a.degree)
  }

  function MulShare(p: int, a: Share, b: Share): Share
    requires p > 0
  {
    Share(Mul(p, a.share, b.share), a.degree + b.degree)
  }

  function AddConst(p: int, a: Share, k: int): Share
    requires p > 0
  {
    Share(Zp.Add(p, a.share, k), a.degree)
  }

  function SubConst(p: int, a: Share, k: int): Share
    requires p > 0
  {
    Share(Sub(p, a.share, k), a.degree)
  }

  function MulConst(p: int, a: Share, k: int): Share
    requires p > 0
  {
    Share(Mul(p, a.share, k), a.degree)
  }

  function NegShare(p: int, a: Share): Share
    requires p > 0
  {
    Share(Sub(p, 0, a.share), a.degree)
  }

  /** `share` is the value at `point` of `f`, a polynomial of the share's degree. */
  ghost predicate ShareOf(p: int, f: seq<int>, point: int, share: Share)
    requires p > 0
  {
    |f| == share.degree + 1 && Eq(p, share.share, Eval(f, point))
  }

  /** The shares are the values of `f` at the points. */
  ghost predicate SharesOf(p: int, f: seq<int>, points: seq<int>, shares: seq<Share>)
    requires p > 0
  {
    |shares| == |points| && forall i :: 0 <= i < |shares| ==> ShareOf(p, f, points[i], shares[i])
  }

  /** Deals shares of `secret`: a polynomial with drawn coefficients, its constant overwritten. */
  method SharesFromSecret(p: int, secret: int, degree: nat, points: seq<int>, sampled: seq<int>)
        returns (shares: seq<Share>, polynomial: Polynomial)
    requires p > 1 && |sampled| == degree + 1
    ensures fresh(polynomial) && polynomial.Valid() && polynomial.coefficients == sampled[0 := secret]
    ensures SharesOf(p, polynomial.coefficients, points, shares)
    ensures forall i :: 0 <= i < |shares| ==> shares[i].degree == degree && Canonical(p, shares[i].share)
  {
    polynomial := new Polynomial.Random(p, degree, sampled);
    polynomial.SetConstantCoeff(secret);
    assert polynomial.coefficients == sampled[0 := secret];
    shares := [];
    var i := 0;
    while i < |points|
      invariant i <= |points| && |shares| == i
      invariant polynomial.Valid() && polynomial.coefficients == sampled[0 := secret]
      invariant forall j :: 0 <= j < i ==> shares[j] == Share(Eval(polynomial.coefficients, points[j]) % p, degree)
    {
      var value := polynomial.Evaluate(points[i]);
      shares := shares + [Share(value, degree)];
      i := i + 1;
    }
    forall j | 0 <= j < |shares|
      ensures ShareOf(p, polynomial.coefficients, points[j], shares[j]) && Canonical(p, shares[j].share)
    {
      Reduced(p, Eval(polynomial.coefficients, points[j]));
    }
  }

  /** Deals one share to every party, unless the degree leaves too few parties to reconstruct. */
  method DealToParties(p: int, secret: int, parties: seq<PartyId>, degree: nat, sampled: seq<int>)
        returns (r: Result<seq<Share>, ShareError>)
    requires p > 1 && |sampled| == degree + 1
    ensures r.Err? <==> degree >= |parties|
    ensures r.Err? ==> r.error == InvalidThreshold(degree, |parties|)
    ensures r.Ok? ==> SharesOf(p, sampled[0 := secret], EncodeAll(p, parties), r.value)
    ensures r.Ok? ==> forall i :: 0 <= i < |r.value| ==> r.value[i].degree == degree && Canonical(p, r.value[i].share)
  {
    if degree >= |parties| { return Err(InvalidThreshold(degree, |parties|)); }
    var shares, polynomial := SharesFromSecret(p, secret, degree, EncodeAll(p, parties), sampled);
    r := Ok(shares);
  }

  function Values(shares: seq<Share>): (r: seq<int>)
    ensures |r| == |shares| && forall i :: 0 <= i < |r| ==> r[i] == shares[i].share
  {
    seq(|shares|, i requires 0 <= i < |shares| => shares[i].share)
  }

  predicate SameDegree(shares: seq<Share>) {
    forall i :: 0 <= i < |shares| ==> shares[i].degree == shares[0].degree
  }

  /** What reconstruction returns, errors in the order in which they are looked for. */
  ghost function Reconstruct(p: int, shares: seq<Share>, points: seq<int>): Result<int, ShareError>
    requires Prime(p)
  {
    if shares == [] then Err(NotEnoughShares)
    else if |shares| != |points| then Err(EvalAndShareLenMismatch(|shares|, |points|))
    else if !SameDegree(shares) then Err(SharesWithDifferentDegree)
    else if |points| < shares[0].degree + 1 then Err(NotEnoughShares)
    else match InterpolateAt(p, Values(shares), points, 0)
      case Ok(secret) => Ok(secret)
      case Err(e) => Err(ReconstructionError(e))
  }

  method SecretFromShares(p: int, shares: seq<Share>, points: seq<int>) returns (r: Result<int, ShareError>)
    requires Prime(p) && AllCanonical(p, points)
    ensures r == Reconstruct(p, shares, points)
  {
    if shares == [] { return Err(NotEnoughShares); }
    if |shares| != |points| { return Err(EvalAndShareLenMismatch(|shares|, |points|)); }
    if !SameDegree(shares) { return Err(SharesWithDifferentDegree); }
    if |points| < shares[0].degree + 1 { return Err(NotEnoughShares); }
    var secret := InterpolatePolynomialAt(p, Values(shares), points, 0);
    r := if secret.Err? then Err(ReconstructionError(secret.error)) else Ok(secret.value);
  }

  /** Enough shares at distinct points reconstruct the secret, and nothing else does. */
  lemma ReconstructionIsExact(p: int, f: seq<int>, points: seq<int>, shares: seq<Share>)
    requires Prime(p) && SharesOf(p, f, points, shares) && shares != []
    ensures Reconstruct(p, shares, points).Ok? <==> |shares| >= |f| && AllDistinct(p, points)
    ensures Reconstruct(p, shares, points).Ok? ==> Reconstruct(p, shares, points) == Ok(Eval(f, 0) % p)
  {
    hide Eval, Eq;
    assert ShareOf(p, f, points[0], shares[0]);
    forall i | 0 <= i < |shares| ensures shares[i].degree == shares[0].degree
      && Eq(p, Values(shares)[i], Eval(f, points[i])) {
      assert ShareOf(p, f, points[i], shares[i]);
    }
    if |shares| >= |f| && AllDistinct(p, points) {
      InterpolationIsExact(p, f, Values(shares), points, 0);
    }
  }

  /**
   * Whatever the shares are, reconstruction succeeds exactly if there is one for each of some distinct
   * points, they are all of one degree, and there are more of them than that degree.
   */
  lemma ReconstructionSucceeds(p: int, shares: seq<Share>, points: seq<int>)
    requires Prime(p)
    ensures Reconstruct(p, shares, points).Ok? <==>
      shares != [] && |shares| == |points| && AllDistinct(p, points)
      && forall i, j :: 0 <= i < |shares| && 0 <= j < |shares| ==> shares[i].degree == shares[j].degree < |shares|
    ensures forall i, j ::
      0 <= i < |shares| == |points| && 0 <= j < |shares| && shares[i].degree != shares[j].degree ==>
        Reconstruct(p, shares, points) == Err(SharesWithDifferentDegree)
  {
    hide AllDistinct, Prime, Interpolant, Eval;
    if SameDegree(shares) {
      forall i, j | 0 <= i < |shares| && 0 <= j < |shares| ensures shares[i].degree == shares[j].degree {}
    }
  }

  /** The members of `s` at the chosen positions, in the chosen order. */
  function Pick<T>(s: seq<T>, chosen: seq<nat>): (r: seq<T>)
    requires forall i :: 0 <= i < |chosen| ==> chosen[i] < |s|
    ensures |r| == |chosen| && forall i :: 0 <= i < |r| ==> r[i] == s[chosen[i]]
  {
    seq(|chosen|, i requires 0 <= i < |chosen| => s[chosen[i]])
  }

  /** Any degree + 1 of the dealt shares or more, in any order, give back the secret. */
  lemma AnyEnoughShares(p: int, f: seq<int>, points: seq<int>, shares: seq<Share>, chosen: seq<nat>)
    requires Prime(p) && SharesOf(p, f, points, shares) && AllDistinct(p, points) && f != []
    requires forall i :: 0 <= i < |chosen| ==> chosen[i] < |shares|
    requires forall i, j :: 0 <= i < j < |chosen| ==> chosen[i] != chosen[j]
    requires |f| <= |chosen|
    ensures Reconstruct(p, Pick(shares, chosen), Pick(points, chosen)) == Ok(Eval(f, 0) % p)
  {
    hide Eval, Eq, Reconstruct;
    var s, q := Pick(shares, chosen), Pick(points, chosen);
    forall i | 0 <= i < |s| ensures ShareOf(p, f, q[i], s[i]) {
      assert ShareOf(p, f, points[chosen[i]], shares[chosen[i]]);
    }
    forall i, j | 0 <= i < j < |q| ensures !Eq(p, q[i], q[j]) {
      NodesDiffer(p, points, chosen[i], chosen[j]);
    }
    ReconstructionIsExact(p, f, q, s);
  }

  /** Adding, subtracting and negating shares does the same to the secrets. */
  lemma LinearShares(p: int, f: seq<int>, g: seq<int>, x: int, a: Share, b: Share)
    requires p > 0 && ShareOf(p, f, x, a) && ShareOf(p, g, x, b)
    ensures a.degree == b.degree ==> ShareOf(p, Plus(f, g), x, AddShare(p, a, b))
    ensures a.degree == b.degree ==> ShareOf(p, Plus(f, Scale(-1, g)), x, SubShare(p, a, b))
    ensures ShareOf(p, Scale(-1, f), x, NegShare(p, a))
  {
    EvalPlus(f, g, x);
    Difference(f, g, x);
    EvalScale(-1, f, x);
    hide Eval, Plus, Scale;
    SumEq(p, a.share, Eval(f, x), b.share, Eval(g, x));
    SumEq(p, 0, 0, a.share, Eval(f, x));
    Reduced(p, a.share + b.share);
    Reduced(p, a.share - b.share);
    Reduced(p, 0 - a.share);
  }

  /** Multiplying shares multiplies the secrets, on a polynomial of the summed degree. */
  lemma ProductShares(p: int, f: seq<int>, g: seq<int>, x: int, a: Share, b: Share)
    requires p > 0 && ShareOf(p, f, x, a) && ShareOf(p, g, x, b)
    ensures ShareOf(p, Times(f, g), x, MulShare(p, a, b))
  {
    EvalTimes(f, g, x);
    hide Eval, Times;
    ProductEq(p, a.share, Eval(f, x), b.share, Eval(g, x));
    Reduced(p, a.share * b.share);
    assert |Times(f, g)| == a.degree + b.degree + 1;
  }

  /** Scaling a share scales the secret. */
  lemma ScaledShare(p: int, f: seq<int>, k: int, x: int, a: Share)
    requires p > 0 && ShareOf(p, f, x, a)
    ensures ShareOf(p, Scale(k, f), x, MulConst(p, a, k))
  {
    hide Eval, Scale;
    EvalScale(k, f, x);
    ProductEq(p, k, k, a.share, Eval(f, x));
    Reduced(p, a.share * k);
    assert a.share * k == k * a.share;
    assert |Scale(k, f)| == |f|;
  }

  /** Adding a constant to every share adds it to the secret. */
  lemma ShiftedShare(p: int, f: seq<int>, k: int, x: int, a: Share)
    requires p > 0 && ShareOf(p, f, x, a)
    ensures ShareOf(p, Plus(f, [k]), x, AddConst(p, a, k))
    ensures ShareOf(p, Plus(f, [-k]), x, SubConst(p, a, k))
  {
    hide Eval, Plus, Zp.Add, Sub;
    EvalPlus(f, [k], x);
    EvalPlus(f, [-k], x);
    EvalConst(k, x);
    EvalConst(-k, x);
    ConstAdded(p, a.share, Eval(f, x), k);
    assert |Plus(f, [k])| == |f| && |Plus(f, [-k])| == |f|;
  }

  lemma ConstAdded(p: int, a: int, b: int, k: int)
    requires p > 0 && Eq(p, a, b)
    ensures Eq(p, Zp.Add(p, a, k), b + k) && Eq(p, Sub(p, a, k), b - k)
  {
    SumEq(p, a, b, k, k);
    Reduced(p, a + k);
    Reduced(p, a - k);
  }

  lemma EvalConst(k: int, x: int)
    ensures Eval([k], x) == k
  {
    assert Eval([k][1..], x) == 0;
  }

  /** A sharing of the same value at degree t and at degree 2t. */
  datatype DoubleShare = DoubleShare(shareT: Share, share2T: Share)

  /** The constructor asserts that the degrees match. */
  predicate ValidDouble(d: DoubleShare) { 2 * d.shareT.degree == d.share2T.degree }

  /** Distinct ids stay apart as field elements as long as they are below the modulus. */
  lemma SmallIdsStayApart(p: int, parties: seq<PartyId>)
    requires p > 1 && forall i :: 0 <= i < |parties| ==> parties[i] < p
    requires forall i, j :: 0 <= i < j < |parties| ==> parties[i] != parties[j]
    ensures AllDistinct(p, EncodeAll(p, parties))
  {
    var points := EncodeAll(p, parties);
    forall i, j | 0 <= i < j < |points| ensures !Eq(p, points[i], points[j]) {
      SmallCode(p, parties[i]);
      SmallCode(p, parties[j]);
      Reduced(p, points[i]);
      Reduced(p, points[j]);
    }
  }

  lemma SmallCode(p: int, id: PartyId)
    requires p > 1 && id < p
    ensures EncodeParty(p, id) == (if id + 1 == p then 0 else id + 1) && Canonical(p, EncodeParty(p, id))
  {
    if id + 1 == p { Shift(p, 0, 1); Reduced(p, 0); } else { Reduced(p, id + 1); }
  }
}
