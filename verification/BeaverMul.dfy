/** Multiplication of shared values with triples. */
module BeaverMul {
  import opened Wrappers
  import opened SimTypes
  import opened Sequences
  import opened Zp
  import opened Polynomials
  import opened Shamir
  import opened RandomSharing
  import opened Triples

  predicate MulInput(king: PartyId, parties: seq<PartyId>, x: seq<Share>, y: seq<Share>, triples: seq<ShamirTriple>) {
    && |x| > 0 && |y| == |x| && |triples| == |x| && king in parties
    && forall i :: 0 <= i < |x| ==> OneDegree(x[i], y[i], triples[i]) && x[i].degree < |parties|
  }

  predicate OneDegree(x: Share, y: Share, triple: ShamirTriple) {
    y.degree == x.degree && triple.a.degree == x.degree && triple.b.degree == x.degree && triple.mult.degree == x.degree
  }

  /** What is computed locally once d and e are open: c + b * d + a * e + d * e. */
  function Product(p: int, triple: ShamirTriple, d: int, e: int): Share
    requires p > 0
  {
    AddConst(p, AddShare(p, AddShare(p, triple.mult, MulConst(p, triple.b, d)), MulConst(p, triple.a, e)), Mul(p, d, e))
  }

  /**
   * What is accepted has a king to open it, masks of a degree that the parties can open, and products of
   * the degree of the operands.
   */
  lemma AcceptedInput(p: int, king: PartyId, parties: seq<PartyId>, x: seq<Share>, y: seq<Share>,
        triples: seq<ShamirTriple>, i: nat, d: int, e: int)
    requires p > 0 && MulInput(king, parties, x, y, triples) && i < |x|
    ensures exists k :: 0 <= k < |parties| && parties[k] == king
    ensures SubShare(p, x[i], triples[i].a).degree == SubShare(p, y[i], triples[i].b).degree < |parties|
    ensures Product(p, triples[i], d, e).degree == x[i].degree == y[i].degree
    ensures triples[i].a.degree == triples[i].b.degree == x[i].degree
  {
  }

  /** Why a degree is refused that leaves too few parties: the masked operands cannot be opened. */
  lemma RefusedOperand(p: int, points: seq<int>, shares: seq<Share>, k: nat, x: Share, mask: Share)
    requires Prime(p) && k < |shares| && shares[k] == SubShare(p, x, mask) && x.degree >= |points|
    ensures Reconstruct(p, shares, points).Err?
  {
    hide Reconstruct, Prime, AllDistinct;
    ReconstructionSucceeds(p, shares, points);
  }

  class PassiveShamirMul {
    const p: int
    const king: PartyId
    const parties: seq<PartyId>
    const xShares: seq<Share>
    const yShares: seq<Share>
    const triples: seq<ShamirTriple>

    ghost predicate Valid() {
      p > 1 && MulInput(king, parties, xShares, yShares, triples)
    }

    constructor Make(p: int, king: PartyId, parties: seq<PartyId>, x: seq<Share>, y: seq<Share>,
      triples: seq<ShamirTriple>)
      ensures this.p == p && this.king == king && this.parties == parties
      ensures xShares == x && yShares == y && this.triples == triples
    {
      this.p, this.king, this.parties, xShares, yShares, this.triples := p, king, parties, x, y, triples;
    }

    static method New(p: int, king: PartyId, parties: seq<PartyId>, x: seq<Share>, y: seq<Share>,
          triples: seq<ShamirTriple>)
      returns (r: Result<PassiveShamirMul, ProtocolError>)
      requires p > 1
      ensures r.Ok? <==> MulInput(king, parties, x, y, triples)
      ensures r.Ok? ==>
        fresh(r.value) && r.value.Valid() && r.value.p == p && r.value.king == king
        && r.value.parties == Sort(parties)
      ensures r.Ok? ==> r.value.xShares == x && r.value.yShares == y && r.value.triples == triples
    {
      var n := |x|;
      if n == 0 || |y| != n || |triples| != n || king !in parties { return Err(Input); }
      var i := 0;
      while i < n
        invariant i <= n
        invariant forall j :: 0 <= j < i ==> OneDegree(x[j], y[j], triples[j]) && x[j].degree < |parties|
      {
        if !OneDegree(x[i], y[i], triples[i]) || x[i].degree >= |parties| { return Err(Input); }
        i := i + 1;
      }
      assert king in multiset(Sort(parties));
      var protocol := new PassiveShamirMul.Make(p, king, Sort(parties), x, y, triples);
      r := Ok(protocol);
    }

    /** What the party contributes to the opening: both operands of every product, masked. */
    method Masked() returns (masked: seq<Share>)
      requires Valid()
      ensures |masked| == 2 * |xShares|
      ensures forall i :: 0 <= i < |xShares| ==> masked[2 * i] == SubShare(p, xShares[i], triples[i].a)
      ensures forall i :: 0 <= i < |xShares| ==> masked[2 * i + 1] == SubShare(p, yShares[i], triples[i].b)
    {
      masked := [];
      var i := 0;
      while i < |xShares|
        invariant i <= |xShares| && |masked| == 2 * i
        invariant forall j :: 0 <= j < i ==> masked[2 * j] == SubShare(p, xShares[j], triples[j].a)
        invariant forall j :: 0 <= j < i ==> masked[2 * j + 1] == SubShare(p, yShares[j], triples[j].b)
      {
        masked := masked + [SubShare(p, xShares[i], triples[i].a)];
        masked := masked + [SubShare(p, yShares[i], triples[i].b)];
        i := i + 1;
      }
    }

    /** The products, once the masked operands are open. */
    method Finish(values: seq<int>) returns (products: seq<Share>)
      requires Valid() && |values| == 2 * |xShares|
      ensures |products| == |xShares|
      ensures forall i :: 0 <= i < |products| ==>
        products[i] == Product(p, triples[i], values[2 * i], values[2 * i + 1])
    {
      products := [];
      var i := 0;
      while i < |triples|
        invariant i <= |triples| && |products| == i
        invariant forall j :: 0 <= j < i ==> products[j] == Product(p, triples[j], values[2 * j], values[2 * j + 1])
      {
        var d, e := values[2 * i], values[2 * i + 1];
        var ShamirTriple(a, b, c) := triples[i];
        products := products + [AddConst(p, AddShare(p, AddShare(p, c, MulConst(p, b, d)), MulConst(p, a, e)),
          Mul(p, d, e))];
        i := i + 1;
      }
    }
  }

  /** The polynomial behind a product. */
  function ProductPoly(p: int, fa: seq<int>, fb: seq<int>, fc: seq<int>, d: int, e: int): seq<int>
    requires p > 0
  {
    Plus(Plus(Plus(fc, Scale(d, fb)), Scale(e, fa)), [Mul(p, d, e)])
  }

  lemma EvalProductPoly(p: int, fa: seq<int>, fb: seq<int>, fc: seq<int>, d: int, e: int, x: int)
    requires p > 0
    ensures Eval(ProductPoly(p, fa, fb, fc, d, e), x) == Eval(fc, x) + d * Eval(fb, x) + e * Eval(fa, x) + Mul(p, d, e)
  {
    hide Eval, Plus, Scale, Mul;
    EvalPlus(Plus(Plus(fc, Scale(d, fb)), Scale(e, fa)), [Mul(p, d, e)], x);
    EvalPlus(Plus(fc, Scale(d, fb)), Scale(e, fa), x);
    EvalPlus(fc, Scale(d, fb), x);
    EvalScale(d, fb, x);
    EvalScale(e, fa, x);
    EvalConst(Mul(p, d, e), x);
  }

  /** The local computation keeps every party's product on one polynomial of the degree of the triple. */
  lemma ProductShare(p: int, fa: seq<int>, fb: seq<int>, fc: seq<int>, x: int, triple: ShamirTriple, d: int, e: int)
    requires p > 0 && ShareOf(p, fa, x, triple.a) && ShareOf(p, fb, x, triple.b) && ShareOf(p, fc, x, triple.mult)
    requires triple.a.degree == triple.b.degree == triple.mult.degree
    ensures ShareOf(p, ProductPoly(p, fa, fb, fc, d, e), x, Product(p, triple, d, e))
    ensures Product(p, triple, d, e).degree == triple.a.degree
  {
    hide Eval, Plus, Scale, Mul, ShareOf;
    ScaledShare(p, fb, d, x, triple.b);
    ScaledShare(p, fa, e, x, triple.a);
    LinearShares(p, fc, Scale(d, fb), x, triple.mult, MulConst(p, triple.b, d));
    LinearShares(p, Plus(fc, Scale(d, fb)), Scale(e, fa), x, AddShare(p, triple.mult, MulConst(p, triple.b, d)),
      MulConst(p, triple.a, e));
    ShiftedShare(p, Plus(Plus(fc, Scale(d, fb)), Scale(e, fa)), Mul(p, d, e), x,
      AddShare(p, AddShare(p, triple.mult, MulConst(p, triple.b, d)), MulConst(p, triple.a, e)));
  }

  lemma BeaverIdentity(x: int, y: int, a: int, b: int)
    ensures a * b + (x - a) * b + (y - b) * a + (x - a) * (y - b) == x * y
  {
  }

  /** With d = x - a, e = y - b and c = a b, the product shares x y. */
  lemma ProductValue(p: int, fa: seq<int>, fb: seq<int>, fc: seq<int>, d: int, e: int, x: int, y: int)
    requires p > 0 && Eq(p, Eval(fc, 0), Eval(fa, 0) * Eval(fb, 0))
    requires Eq(p, d, x - Eval(fa, 0)) && Eq(p, e, y - Eval(fb, 0))
    ensures Eq(p, Eval(ProductPoly(p, fa, fb, fc, d, e), 0), x * y)
  {
    EvalProductPoly(p, fa, fb, fc, d, e, 0);
    hide Eval, Eq, ProductPoly;
    var a, b, c := Eval(fa, 0), Eval(fb, 0), Eval(fc, 0);
    Reduced(p, d * e);
    ProductEq(p, d, x - a, e, y - b);
    ProductEq(p, d, x - a, b, b);
    ProductEq(p, e, y - b, a, a);
    SumEq(p, c, a * b, d * b, (x - a) * b);
    SumEq(p, c + d * b, a * b + (x - a) * b, e * a, (y - b) * a);
    SameElement(p, Mul(p, d, e), d * e, (x - a) * (y - b));
    SumEq(p, c + d * b + e * a, a * b + (x - a) * b + (y - b) * a, Mul(p, d, e), (x - a) * (y - b));
    BeaverIdentity(x, y, a, b);
  }

  lemma SameElement(p: int, a: int, b: int, c: int)
    requires p > 0 && Eq(p, a, b) && Eq(p, b, c)
    ensures Eq(p, a, c)
  {
  }
}
