/** Multiplication triples by degree reduction with double sharings. */
module Triples {
  import opened Wrappers
  import opened SimTypes
  import opened Sequences
  import opened Zp
  import opened Polynomials
  import opened Shamir
  import opened RandomSharing

  datatype ShamirTriple = ShamirTriple(a: Share, b: Share, mult: Share)

  /** What `new` accepts: equal positive counts, a king among the parties, degrees that match and are small. */
  predicate TripleInput(king: PartyId, parties: seq<PartyId>, a: seq<Share>, b: seq<Share>, doubles: seq<DoubleShare>) {
    && |a| > 0 && |b| == |a| && |doubles| == |a| && king in parties
    && forall i :: 0 <= i < |a| ==>
         a[i].degree == doubles[i].shareT.degree && b[i].degree == doubles[i].shareT.degree
           && 2 * doubles[i].shareT.degree < |parties|
  }

  /** The product of the factors, masked with the share of degree 2t. */
  function MaskProduct(p: int, a: Share, b: Share, d: DoubleShare): Share
    requires p > 0
  {
    AddShare(p, MulShare(p, a, b), d.share2T)
  }

  /** The opened masked product, less the share of degree t. */
  function Unmask(p: int, value: int, d: DoubleShare): Share
    requires p > 0
  {
    AddConst(p, NegShare(p, d.shareT), value)
  }

  /**
   * What is accepted has a king to open it, masked products that the parties can open, and results of the
   * degree of the factors.
   */
  lemma AcceptedInput(p: int, king: PartyId, parties: seq<PartyId>, a: seq<Share>, b: seq<Share>,
        doubles: seq<DoubleShare>, i: nat, value: int)
    requires p > 0 && TripleInput(king, parties, a, b, doubles) && i < |a|
    ensures exists k :: 0 <= k < |parties| && parties[k] == king
    ensures MaskProduct(p, a[i], b[i], doubles[i]).degree < |parties|
    ensures Unmask(p, value, doubles[i]).degree == a[i].degree == b[i].degree
  {
  }

  /** Why a degree is refused of which twice as many as there are parties are needed: the mask cannot be opened. */
  lemma RefusedMask(p: int, points: seq<int>, shares: seq<Share>, k: nat, a: Share, b: Share, d: DoubleShare)
    requires Prime(p) && k < |shares| && shares[k] == MaskProduct(p, a, b, d)
    requires a.degree == b.degree == d.shareT.degree && 2 * d.shareT.degree >= |points|
    ensures Reconstruct(p, shares, points).Err?
  {
    hide Reconstruct, Prime, AllDistinct;
    ReconstructionSucceeds(p, shares, points);
  }

  class PassiveTriple {
    const p: int
    const king: PartyId
    const parties: seq<PartyId>
    const aShares: seq<Share>
    const bShares: seq<Share>
    const doubleShares: seq<DoubleShare>

    ghost predicate Valid() {
      p > 1 && TripleInput(king, parties, aShares, bShares, doubleShares)
    }

    constructor Make(p: int, king: PartyId, parties: seq<PartyId>, a: seq<Share>, b: seq<Share>,
      doubles: seq<DoubleShare>)
      ensures this.p == p && this.king == king && this.parties == parties
      ensures aShares == a && bShares == b && doubleShares == doubles
    {
      this.p, this.king, this.parties, aShares, bShares, doubleShares := p, king, parties, a, b, doubles;
    }

    static method New(p: int, king: PartyId, parties: seq<PartyId>, a: seq<Share>, b: seq<Share>,
          doubles: seq<DoubleShare>)
      returns (r: Result<PassiveTriple, ProtocolError>)
      requires p > 1
      ensures r.Ok? <==> TripleInput(king, parties, a, b, doubles)
      ensures r.Ok? ==>
        fresh(r.value) && r.value.Valid() && r.value.p == p && r.value.king == king
        && r.value.parties == Sort(parties)
      ensures r.Ok? ==> r.value.aShares == a && r.value.bShares == b && r.value.doubleShares == doubles
    {
      var n := |a|;
      if n == 0 || |b| != n || |doubles| != n || king !in parties { return Err(Input); }
      var i := 0;
      while i < n
        invariant i <= n
        invariant forall j :: 0 <= j < i ==>
          a[j].degree == doubles[j].shareT.degree && b[j].degree == doubles[j].shareT.degree
            && 2 * doubles[j].shareT.degree < |parties|
      {
        var t := doubles[i].shareT.degree;
        if a[i].degree != t || b[i].degree != t || 2 * t >= |parties| { return Err(Input); }
        i := i + 1;
      }
      assert king in multiset(Sort(parties));
      var protocol := new PassiveTriple.Make(p, king, Sort(parties), a, b, doubles);
      r := Ok(protocol);
    }

    /** What the party contributes to the opening: the masked products. */
    method Masked() returns (masked: seq<Share>)
      requires Valid()
      ensures |masked| == |aShares|
      ensures forall i :: 0 <= i < |masked| ==> masked[i] == MaskProduct(p, aShares[i], bShares[i], doubleShares[i])
    {
      masked := [];
      var i := 0;
      while i < |aShares|
        invariant i <= |aShares| && |masked| == i
        invariant forall j :: 0 <= j < i ==> masked[j] == MaskProduct(p, aShares[j], bShares[j], doubleShares[j])
      {
        masked := masked + [AddShare(p, MulShare(p, aShares[i], bShares[i]), doubleShares[i].share2T)];
        i := i + 1;
      }
    }

    /** The triples, once the masked products are open. */
    method Finish(values: seq<int>) returns (triples: seq<ShamirTriple>)
      requires Valid() && |values| == |aShares|
      ensures |triples| == |aShares|
      ensures forall i :: 0 <= i < |triples| ==>
        triples[i] == ShamirTriple(aShares[i], bShares[i], Unmask(p, values[i], doubleShares[i]))
    {
      var negated: seq<Share> := [];
      var i := 0;
      while i < |doubleShares|
        invariant i <= |doubleShares| && |negated| == i
        invariant forall j :: 0 <= j < i ==> negated[j] == NegShare(p, doubleShares[j].shareT)
      {
        negated := negated + [NegShare(p, doubleShares[i].shareT)];
        i := i + 1;
      }
      triples := [];
      i := 0;
      while i < |aShares|
        invariant i <= |aShares| && |triples| == i
        invariant forall j :: 0 <= j < i ==>
          triples[j] == ShamirTriple(aShares[j], bShares[j], Unmask(p, values[j], doubleShares[j]))
      {
        triples := triples + [ShamirTriple(aShares[i], bShares[i], AddConst(p, negated[i], values[i]))];
        i := i + 1;
      }
    }
  }

  /** The polynomial behind a masked product. */
  function MaskPoly(f: seq<int>, g: seq<int>, r2: seq<int>): seq<int> { Plus(Times(f, g), r2) }

  /** The polynomial behind the third component of a triple. */
  function UnmaskPoly(value: int, r: seq<int>): seq<int> { Plus(Scale(-1, r), [value]) }

  /** A masked product is a share, of degree 2t, of the product plus the mask. */
  lemma MaskedShare(p: int, t: nat, f: seq<int>, g: seq<int>, r2: seq<int>, x: int, a: Share, b: Share, d: DoubleShare)
    requires p > 0 && ShareOf(p, f, x, a) && ShareOf(p, g, x, b) && ShareOf(p, r2, x, d.share2T)
    requires a.degree == b.degree == t && d.share2T.degree == 2 * t
    ensures ShareOf(p, MaskPoly(f, g, r2), x, MaskProduct(p, a, b, d)) && |MaskPoly(f, g, r2)| == 2 * t + 1
    ensures Eval(MaskPoly(f, g, r2), 0) == Eval(f, 0) * Eval(g, 0) + Eval(r2, 0)
  {
    ProductShares(p, f, g, x, a, b);
    LinearShares(p, Times(f, g), r2, x, MulShare(p, a, b), d.share2T);
    hide Eval, Plus, Times;
    EvalPlus(Times(f, g), r2, 0);
    EvalTimes(f, g, 0);
  }

  /** The third component is a share, of degree t again, of the product itself. */
  lemma UnmaskedShare(p: int, t: nat, r: seq<int>, x: int, d: DoubleShare, value: int, ab: int)
    requires p > 0 && ShareOf(p, r, x, d.shareT) && d.shareT.degree == t
    requires Eq(p, value, ab + Eval(r, 0))
    ensures ShareOf(p, UnmaskPoly(value, r), x, Unmask(p, value, d)) && Unmask(p, value, d).degree == t
    ensures Eq(p, Eval(UnmaskPoly(value, r), 0), ab)
  {
    LinearShares(p, r, r, x, d.shareT, d.shareT);
    ShiftedShare(p, Scale(-1, r), value, x, NegShare(p, d.shareT));
    hide Eval, Plus, Scale;
    EvalPlus(Scale(-1, r), [value], 0);
    EvalScale(-1, r, 0);
    EvalConst(value, 0);
    SumEq(p, value, ab + Eval(r, 0), Eval(r, 0), Eval(r, 0));
  }
}
