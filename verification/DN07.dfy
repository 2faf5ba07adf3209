/**
 * The whole of passively secure multiplication: random sharings, double sharings, triples and the
 * multiplication itself, seen from all parties at once. Every drawn coefficient is arbitrary.
 */
module DN07 {
  import opened Wrappers
  import opened SimTypes
  import opened Sequences
  import opened Zp
  import opened Polynomials
  import opened Interpolation
  import opened Shamir
  import opened Matrices
  import opened Extraction
  import opened RandomSharing
  import opened KingOpening
  import opened Triples
  import opened BeaverMul

  /** Every party has a share, of degree `degree`, of each of the polynomials. */
  ghost predicate Shared(p: int, degree: nat, points: seq<int>, fs: seq<seq<int>>, shares: seq<seq<Share>>)
    requires p > 0
  {
    ColumnsShared(p, fs, points, shares) && forall i :: 0 <= i < |fs| ==> |fs[i]| == degree + 1
  }

  /** One family of deals: dealer i's polynomial is `fs[i]`, and party k received `dealt[k]`. */
  datatype Deals = Deals(fs: seq<seq<int>>, dealt: seq<seq<Share>>)

  ghost predicate ValidDeals(p: int, degree: nat, points: seq<int>, d: Deals)
    requires p > 0
  {
    && |d.fs| == |points| && |d.dealt| == |points|
    && (forall i :: 0 <= i < |d.fs| ==> |d.fs[i]| == degree + 1)
    && (forall k :: 0 <= k < |d.dealt| ==> SharesAt(p, d.fs, degree, points[k], d.dealt[k]))
  }

  /** The deals that the dealers' shares make up: dealer i's `shares[i][k]` goes to party k. */
  function DealsOf(fs: seq<seq<int>>, shares: seq<seq<Share>>, n: nat): Deals
    requires |shares| == |fs| && forall i :: 0 <= i < |shares| ==> |shares[i]| == n
  {
    Deals(fs, seq(n, k requires 0 <= k < n => seq(|fs|, i requires 0 <= i < |fs| => shares[i][k])))
  }

  /** The polynomial by which a secret is dealt. */
  function Dealer(secret: int, sampled: seq<int>): seq<int>
    requires sampled != []
  {
    sampled[0 := secret]
  }

  /**
   * What honest dealers deal, whatever they draw, is a valid family of deals; and two families of the
   * same secrets, as in a double sharing, have the same constants.
   */
  lemma HonestDeals(p: int, degree: nat, points: seq<int>, fs: seq<seq<int>>, secrets: seq<int>,
        sampled: seq<seq<int>>, shares: seq<seq<Share>>)
    requires p > 0 && |fs| == |secrets| == |sampled| == |shares| == |points|
    requires forall i :: 0 <= i < |fs| ==> |sampled[i]| == degree + 1 && fs[i] == Dealer(secrets[i], sampled[i])
    requires forall i :: 0 <= i < |fs| ==> SharesOf(p, fs[i], points, shares[i])
    ensures forall i :: 0 <= i < |shares| ==> |shares[i]| == |points|
    ensures ValidDeals(p, degree, points, DealsOf(fs, shares, |points|))
    ensures forall i :: 0 <= i < |fs| ==> Eval(fs[i], 0) == secrets[i]
  {
    var d := DealsOf(fs, shares, |points|);
    forall k | 0 <= k < |points| ensures SharesAt(p, fs, degree, points[k], d.dealt[k]) {
      forall i | 0 <= i < |fs| ensures ShareOf(p, fs[i], points[k], d.dealt[k][i]) && d.dealt[k][i].degree == degree {
        assert SharesOf(p, fs[i], points, shares[i]);
      }
    }
    forall i | 0 <= i < |fs| ensures Eval(fs[i], 0) == secrets[i] { AtZero(fs[i]); }
  }

  /**
   * A session of `count` multiplications by the parties at `points`: the deals for the factors of the
   * triples, the two families of double sharings, and the operands.
   */
  datatype Session = Session(
    p: int, t: nat, points: seq<int>, count: nat,
    a: Deals, b: Deals, r: Deals, r2: Deals,
    x: seq<seq<int>>, xShares: seq<seq<Share>>,
    y: seq<seq<int>>, yShares: seq<seq<Share>>)

  ghost predicate Valid(s: Session) {
    && Prime(s.p) && AllDistinct(s.p, s.points) && 2 * s.t < |s.points|
    && 0 < s.count <= |s.points| - s.t
    && ValidDeals(s.p, s.t, s.points, s.a) && ValidDeals(s.p, s.t, s.points, s.b)
    && ValidDeals(s.p, s.t, s.points, s.r) && ValidDeals(s.p, 2 * s.t, s.points, s.r2)
    && (forall i :: 0 <= i < |s.points| ==> Eval(s.r.fs[i], 0) == Eval(s.r2.fs[i], 0))
    && |s.x| == |s.y| == s.count
    && Shared(s.p, s.t, s.points, s.x, s.xShares) && Shared(s.p, s.t, s.points, s.y, s.yShares)
  }

  /** Party k's l-th random share from a family of deals. */
  ghost function RandomShare(s: Session, d: Deals, k: nat, l: nat): Share
    requires s.p > 0 && s.points != [] && |d.dealt| == |s.points| && k < |d.dealt| && |d.dealt[k]| == |s.points|
      && l < |s.points| - s.t
  {
    RowShares(s.p, ExtractionRows(s.p, s.points, |s.points| - s.t), d.dealt[k])[l]
  }

  /** The polynomial behind it. */
  ghost function RandomPoly(s: Session, d: Deals, l: nat): seq<int>
    requires s.p > 0 && s.points != [] && |d.fs| == |s.points| && l < |s.points| - s.t
  {
    OutputPoly(s.p, s.points, |s.points| - s.t, d.fs, l)
  }

  lemma RandomShared(s: Session, d: Deals, degree: nat, k: nat, l: nat)
    requires s.p > 0 && s.points != [] && ValidDeals(s.p, degree, s.points, d) && k < |s.points| && l < |s.points| - s.t
    ensures ShareOf(s.p, RandomPoly(s, d, l), s.points[k], RandomShare(s, d, k, l))
    ensures RandomShare(s, d, k, l).degree == degree && |RandomPoly(s, d, l)| == degree + 1
  {
    OutputsAreShared(s.p, s.points, |s.points| - s.t, d.fs, degree, s.points[k], d.dealt[k], l);
  }

  ghost function Double(s: Session, k: nat, l: nat): DoubleShare
    requires Valid(s) && k < |s.points| && l < s.count
  {
    DoubleShare(RandomShare(s, s.r, k, l), RandomShare(s, s.r2, k, l))
  }

  /** What party k contributes to the opening in triple generation. */
  ghost function TripleMasks(s: Session, k: nat): (r: seq<Share>)
    requires Valid(s) && k < |s.points|
    ensures |r| == s.count
  {
    seq(s.count, l requires 0 <= l < s.count =>
      MaskProduct(s.p, RandomShare(s, s.a, k, l), RandomShare(s, s.b, k, l), Double(s, k, l)))
  }

  ghost function AllTripleMasks(s: Session): (r: seq<seq<Share>>)
    requires Valid(s)
    ensures |r| == |s.points| && forall k :: 0 <= k < |r| ==> |r[k]| == s.count
  {
    seq(|s.points|, k requires 0 <= k < |s.points| => TripleMasks(s, k))
  }

  ghost function MaskPolys(s: Session): (r: seq<seq<int>>)
    requires Valid(s)
    ensures |r| == s.count
  {
    seq(s.count, l requires 0 <= l < s.count =>
      MaskPoly(RandomPoly(s, s.a, l), RandomPoly(s, s.b, l), RandomPoly(s, s.r2, l)))
  }

  lemma MaskIsShared(s: Session, k: nat, l: nat)
    requires Valid(s) && k < |s.points| && l < s.count
    ensures ShareOf(s.p, MaskPolys(s)[l], s.points[k], TripleMasks(s, k)[l]) && |MaskPolys(s)[l]| == 2 * s.t + 1
    ensures Eval(MaskPolys(s)[l], 0) ==
      Eval(RandomPoly(s, s.a, l), 0) * Eval(RandomPoly(s, s.b, l), 0) + Eval(RandomPoly(s, s.r, l), 0)
  {
    hide Eval, ShareOf, RandomPoly, RandomShare, MaskPoly, MaskProduct, Shared, AllDistinct;
    RandomShared(s, s.a, s.t, k, l);
    RandomShared(s, s.b, s.t, k, l);
    RandomShared(s, s.r2, 2 * s.t, k, l);
    MaskedShare(s.p, s.t, RandomPoly(s, s.a, l), RandomPoly(s, s.b, l), RandomPoly(s, s.r2, l), s.points[k],
      RandomShare(s, s.a, k, l), RandomShare(s, s.b, k, l), Double(s, k, l));
    SameRandom(s, l);
  }

  lemma SameRandom(s: Session, l: nat)
    requires Valid(s) && l < s.count
    ensures Eval(RandomPoly(s, s.r, l), 0) == Eval(RandomPoly(s, s.r2, l), 0)
  {
    hide Eval, SharesAt, Shared, AllDistinct;
    DoubleOutputsAgree(s.p, s.points, |s.points| - s.t, s.r.fs, s.r2.fs, l);
  }

  /** The opening in triple generation succeeds, with the masked products. */
  lemma TripleOpening(s: Session)
    requires Valid(s)
    ensures OpenAll(s.p, s.points, AllTripleMasks(s), s.count) == Ok(Secrets(s.p, MaskPolys(s), s.count))
  {
    hide ShareOf, Eval, TripleMasks, MaskPolys, OpenAll;
    forall l, k | 0 <= l < s.count && 0 <= k < |s.points|
      ensures ShareOf(s.p, MaskPolys(s)[l], s.points[k], AllTripleMasks(s)[k][l])
    {
      MaskIsShared(s, k, l);
    }
    forall l | 0 <= l < s.count ensures |MaskPolys(s)[l]| <= |s.points| {
      MaskIsShared(s, 0, l);
    }
    assert ColumnsShared(s.p, MaskPolys(s), s.points, AllTripleMasks(s));
    KingOpens(s.p, MaskPolys(s), s.points, AllTripleMasks(s), s.count);
  }

  /** The value opened for the l-th triple. */
  ghost function OpenedMask(s: Session, l: nat): int
    requires Valid(s) && l < s.count
  {
    Secrets(s.p, MaskPolys(s), s.count)[l]
  }

  /** Party k's l-th triple. */
  ghost function Triple(s: Session, k: nat, l: nat): ShamirTriple
    requires Valid(s) && k < |s.points| && l < s.count
  {
    ShamirTriple(RandomShare(s, s.a, k, l), RandomShare(s, s.b, k, l), Unmask(s.p, OpenedMask(s, l), Double(s, k, l)))
  }

  ghost function TriplePoly(s: Session, l: nat): seq<int>
    requires Valid(s) && l < s.count
  {
    UnmaskPoly(OpenedMask(s, l), RandomPoly(s, s.r, l))
  }

  /** Triples are correct: three sharings of degree t, of a, of b and of their product. */
  lemma TriplesAreCorrect(s: Session, k: nat, l: nat)
    requires Valid(s) && k < |s.points| && l < s.count
    ensures var triple := Triple(s, k, l); var x := s.points[k];
      && ShareOf(s.p, RandomPoly(s, s.a, l), x, triple.a) && triple.a.degree == s.t
      && ShareOf(s.p, RandomPoly(s, s.b, l), x, triple.b) && triple.b.degree == s.t
      && ShareOf(s.p, TriplePoly(s, l), x, triple.mult) && triple.mult.degree == s.t
    ensures Eq(s.p, Eval(TriplePoly(s, l), 0), Eval(RandomPoly(s, s.a, l), 0) * Eval(RandomPoly(s, s.b, l), 0))
    ensures |RandomPoly(s, s.a, l)| == |RandomPoly(s, s.b, l)| == s.t + 1
  {
    hide Eval, ShareOf, RandomPoly, RandomShare, SharesAt, MaskPolys, UnmaskPoly, Unmask, Shared, AllDistinct, Eq;
    RandomShared(s, s.a, s.t, k, l);
    RandomShared(s, s.b, s.t, k, l);
    RandomShared(s, s.r, s.t, k, l);
    MaskIsShared(s, k, l);
    var ab := Eval(RandomPoly(s, s.a, l), 0) * Eval(RandomPoly(s, s.b, l), 0);
    Reduced(s.p, Eval(MaskPolys(s)[l], 0));
    UnmaskedShare(s.p, s.t, RandomPoly(s, s.r, l), s.points[k], Double(s, k, l), OpenedMask(s, l), ab);
  }

  /** What party k contributes to the opening in the multiplication. */
  ghost function OperandMasks(s: Session, k: nat): (r: seq<Share>)
    requires Valid(s) && k < |s.points|
    ensures |r| == 2 * s.count
  {
    seq(2 * s.count, i requires 0 <= i < 2 * s.count =>
      if i % 2 == 0 then SubShare(s.p, s.xShares[k][i / 2], Triple(s, k, i / 2).a)
      else SubShare(s.p, s.yShares[k][i / 2], Triple(s, k, i / 2).b))
  }

  ghost function AllOperandMasks(s: Session): (r: seq<seq<Share>>)
    requires Valid(s)
    ensures |r| == |s.points| && forall k :: 0 <= k < |r| ==> |r[k]| == 2 * s.count
  {
    seq(|s.points|, k requires 0 <= k < |s.points| => OperandMasks(s, k))
  }

  ghost function OperandPolys(s: Session): (r: seq<seq<int>>)
    requires Valid(s)
    ensures |r| == 2 * s.count
  {
    seq(2 * s.count, i requires 0 <= i < 2 * s.count =>
      if i % 2 == 0 then Plus(s.x[i / 2], Scale(-1, RandomPoly(s, s.a, i / 2)))
      else Plus(s.y[i / 2], Scale(-1, RandomPoly(s, s.b, i / 2))))
  }

  lemma OperandIsShared(s: Session, k: nat, i: nat)
    requires Valid(s) && k < |s.points| && i < 2 * s.count
    ensures ShareOf(s.p, OperandPolys(s)[i], s.points[k], OperandMasks(s, k)[i]) && |OperandPolys(s)[i]| == s.t + 1
    ensures Eval(OperandPolys(s)[i], 0) ==
      if i % 2 == 0 then Eval(s.x[i / 2], 0) - Eval(RandomPoly(s, s.a, i / 2), 0)
      else Eval(s.y[i / 2], 0) - Eval(RandomPoly(s, s.b, i / 2), 0)
  {
    hide Eval, RandomPoly, SharesAt, Triple, AllDistinct, Eq, Plus, Scale;
    var l, x := i / 2, s.points[k];
    TriplesAreCorrect(s, k, l);
    if i % 2 == 0 {
      LinearShares(s.p, s.x[l], RandomPoly(s, s.a, l), x, s.xShares[k][l], Triple(s, k, l).a);
      Difference(s.x[l], RandomPoly(s, s.a, l), 0);
    } else {
      LinearShares(s.p, s.y[l], RandomPoly(s, s.b, l), x, s.yShares[k][l], Triple(s, k, l).b);
      Difference(s.y[l], RandomPoly(s, s.b, l), 0);
    }
  }

  /** The opening in the multiplication succeeds, with the masked operands. */
  lemma OperandOpening(s: Session)
    requires Valid(s)
    ensures OpenAll(s.p, s.points, AllOperandMasks(s), 2 * s.count) == Ok(Secrets(s.p, OperandPolys(s), 2 * s.count))
  {
    hide ShareOf, Eval, OperandMasks, OperandPolys, OpenAll;
    forall i, k | 0 <= i < 2 * s.count && 0 <= k < |s.points|
      ensures ShareOf(s.p, OperandPolys(s)[i], s.points[k], AllOperandMasks(s)[k][i])
    {
      OperandIsShared(s, k, i);
    }
    forall i | 0 <= i < 2 * s.count ensures |OperandPolys(s)[i]| <= |s.points| {
      OperandIsShared(s, 0, i);
    }
    assert ColumnsShared(s.p, OperandPolys(s), s.points, AllOperandMasks(s));
    KingOpens(s.p, OperandPolys(s), s.points, AllOperandMasks(s), 2 * s.count);
  }

  ghost function OpenedOperand(s: Session, i: nat): int
    requires Valid(s) && i < 2 * s.count
  {
    Secrets(s.p, OperandPolys(s), 2 * s.count)[i]
  }

  /** Party k's shares of the products. */
  ghost function Products(s: Session, k: nat): (r: seq<Share>)
    requires Valid(s) && k < |s.points|
    ensures |r| == s.count
  {
    seq(s.count, l requires 0 <= l < s.count =>
      Product(s.p, Triple(s, k, l), OpenedOperand(s, 2 * l), OpenedOperand(s, 2 * l + 1)))
  }

  ghost function AllProducts(s: Session): (r: seq<seq<Share>>)
    requires Valid(s)
    ensures |r| == |s.points| && forall k :: 0 <= k < |r| ==> |r[k]| == s.count
  {
    seq(|s.points|, k requires 0 <= k < |s.points| => Products(s, k))
  }

  ghost function ProductPolys(s: Session): (r: seq<seq<int>>)
    requires Valid(s)
    ensures |r| == s.count
  {
    seq(s.count, l requires 0 <= l < s.count =>
      ProductPoly(s.p, RandomPoly(s, s.a, l), RandomPoly(s, s.b, l), TriplePoly(s, l), OpenedOperand(s, 2 * l),
        OpenedOperand(s, 2 * l + 1)))
  }

  lemma ProductIsShared(s: Session, k: nat, l: nat)
    requires Valid(s) && k < |s.points| && l < s.count
    ensures ShareOf(s.p, ProductPolys(s)[l], s.points[k], Products(s, k)[l])
    ensures Products(s, k)[l].degree == s.t && |ProductPolys(s)[l]| == s.t + 1
  {
    hide Eval, RandomPoly, SharesAt, Triple, AllDistinct, Eq, TriplePoly, OpenedOperand, Product, ProductPoly, Shared;
    TriplesAreCorrect(s, k, l);
    ProductShare(s.p, RandomPoly(s, s.a, l), RandomPoly(s, s.b, l), TriplePoly(s, l), s.points[k], Triple(s, k, l),
      OpenedOperand(s, 2 * l), OpenedOperand(s, 2 * l + 1));
  }

  lemma ProductIsRight(s: Session, l: nat)
    requires Valid(s) && l < s.count
    ensures Eq(s.p, Eval(ProductPolys(s)[l], 0), Eval(s.x[l], 0) * Eval(s.y[l], 0))
  {
    hide Eval, RandomPoly, SharesAt, Triple, AllDistinct, TriplePoly, Product, ProductPoly, Shared, OperandPolys,
      ShareOf;
    TriplesAreCorrect(s, 0, l);
    OperandIsShared(s, 0, 2 * l);
    OperandIsShared(s, 0, 2 * l + 1);
    Reduced(s.p, Eval(OperandPolys(s)[2 * l], 0));
    Reduced(s.p, Eval(OperandPolys(s)[2 * l + 1], 0));
    ProductValue(s.p, RandomPoly(s, s.a, l), RandomPoly(s, s.b, l), TriplePoly(s, l),
      OpenedOperand(s, 2 * l), OpenedOperand(s, 2 * l + 1), Eval(s.x[l], 0), Eval(s.y[l], 0));
  }

  /**
   * Multiplication is correct: for every t with 2t < n, any distinct points, any drawn coefficients
   * and any operands shared at degree t, both openings succeed, and the parties' l-th outputs are
   * shares of degree t of x_l y_l, so that they can be operands of the next multiplication.
   */
  lemma MultiplicationIsCorrect(s: Session)
    requires Valid(s)
    ensures OpenAll(s.p, s.points, AllTripleMasks(s), s.count).Ok?
    ensures OpenAll(s.p, s.points, AllOperandMasks(s), 2 * s.count).Ok?
    ensures Shared(s.p, s.t, s.points, ProductPolys(s), AllProducts(s))
    ensures forall l :: 0 <= l < s.count ==> Eq(s.p, Eval(ProductPolys(s)[l], 0), Eval(s.x[l], 0) * Eval(s.y[l], 0))
  {
    hide Eval, ShareOf, OpenAll, ProductPolys, Products, OperandMasks, TripleMasks, Eq, AllDistinct;
    TripleOpening(s);
    OperandOpening(s);
    forall l, k | 0 <= l < s.count && 0 <= k < |s.points|
      ensures ShareOf(s.p, ProductPolys(s)[l], s.points[k], AllProducts(s)[k][l])
    {
      ProductIsShared(s, k, l);
    }
    forall l | 0 <= l < s.count
      ensures |ProductPolys(s)[l]| == s.t + 1
      ensures Eq(s.p, Eval(ProductPolys(s)[l], 0), Eval(s.x[l], 0) * Eval(s.y[l], 0))
    {
      ProductIsShared(s, 0, l);
      ProductIsRight(s, l);
    }
  }

  /** The checks at construction let these inputs through. */
  lemma InputsAreAccepted(s: Session, k: nat, king: PartyId, parties: seq<PartyId>)
    requires Valid(s) && k < |s.points| && king in parties && |parties| == |s.points|
    ensures TripleInput(king, parties,
      seq(s.count, l requires 0 <= l < s.count => RandomShare(s, s.a, k, l)),
      seq(s.count, l requires 0 <= l < s.count => RandomShare(s, s.b, k, l)),
      seq(s.count, l requires 0 <= l < s.count => Double(s, k, l)))
    ensures MulInput(king, parties, s.xShares[k], s.yShares[k],
      seq(s.count, l requires 0 <= l < s.count => Triple(s, k, l)))
  {
    hide Eval, RandomPoly, RandomShare, Triple, AllDistinct, Eq, TriplePoly;
    forall l | 0 <= l < s.count
      ensures RandomShare(s, s.a, k, l).degree == RandomShare(s, s.b, k, l).degree == Double(s, k, l).shareT.degree
        == s.t
      ensures OneDegree(s.xShares[k][l], s.yShares[k][l], Triple(s, k, l)) && s.xShares[k][l].degree == s.t
    {
      RandomShared(s, s.a, s.t, k, l);
      RandomShared(s, s.b, s.t, k, l);
      RandomShared(s, s.r, s.t, k, l);
      TriplesAreCorrect(s, k, l);
      assert ShareOf(s.p, s.x[l], s.points[k], s.xShares[k][l]) && ShareOf(s.p, s.y[l], s.points[k], s.yShares[k][l]);
    }
  }
}
