/**
 * Random sharings and random double sharings: every party deals a secret of its own, and the
 * extraction matrix turns the dealt sharings into fewer that no t parties know.
 */
module RandomSharing {
  import opened Wrappers
  import opened SimTypes
  import opened Kernel
  import opened Sequences
  import opened Zp
  import opened Polynomials
  import opened Interpolation
  import opened Shamir
  import opened Matrices
  import opened Extraction

  /** The `Input` error of the protocols. */
  datatype ProtocolError = Input

  /** What a party holds after the deals: its own dealer's share and what it received, in party order. */
  function InOrder<T>(parties: seq<PartyId>, me: PartyId, own: T, inbox: map<PartyId, T>): (r: seq<T>)
    requires forall q :: q in parties && q != me ==> q in inbox
    ensures |r| == |parties|
    ensures forall i :: 0 <= i < |r| ==> r[i] == if parties[i] == me then own else inbox[parties[i]]
  {
    seq(|parties|, i requires 0 <= i < |parties| => if parties[i] == me then own else inbox[parties[i]])
  }

  /** The receive loop over the parties; `inbox` is what `recv_from` gives for each of the others. */
  method CollectInOrder<T>(parties: seq<PartyId>, me: PartyId, own: T, inbox: map<PartyId, T>) returns (shares: seq<T>)
    requires forall q :: q in parties && q != me ==> q in inbox
    ensures shares == InOrder(parties, me, own, inbox)
  {
    shares := [];
    var i := 0;
    while i < |parties|
      invariant i <= |parties| && |shares| == i
      invariant forall j :: 0 <= j < i ==> shares[j] == InOrder(parties, me, own, inbox)[j]
    {
      if parties[i] != me {
        shares := shares + [inbox[parties[i]]];
      } else {
        shares := shares + [own];
      }
      i := i + 1;
    }
  }

  class PassiveRandShr {
    const p: int
    const t: nat
    const parties: seq<PartyId>
    const vandermonde: Matrix

    ghost predicate Valid()
      reads vandermonde
    {
      && p > 1 && t < |parties| && Ascending(parties)
      && vandermonde.Valid() && vandermonde.p == p
      && vandermonde.View() == ExtractionRows(p, EncodeAll(p, parties), |parties| - t)
    }

    constructor Make(p: int, t: nat, parties: seq<PartyId>, vandermonde: Matrix)
      ensures this.p == p && this.t == t && this.parties == parties && this.vandermonde == vandermonde
    {
      this.p, this.t, this.parties, this.vandermonde := p, t, parties, vandermonde;
    }

    static method New(p: int, t: nat, parties: seq<PartyId>) returns (r: Result<PassiveRandShr, ProtocolError>)
      requires p > 1
      ensures r.Err? <==> t >= |parties|
      ensures r.Ok? ==> fresh(r.value) && fresh(r.value.vandermonde) && r.value.Valid()
      ensures r.Ok? ==> r.value.p == p && r.value.t == t && r.value.parties == Sort(parties)
    {
      if t >= |parties| { return Err(Input); }
      var sorted := Sort(parties);
      var m := ExtractionMatrix(p, sorted, |parties| - t);
      var protocol := new PassiveRandShr.Make(p, t, sorted, m);
      r := Ok(protocol);
    }

    /** The local part of a run: own share and received shares, times the matrix. */
    method Run(me: PartyId, own: Share, inbox: map<PartyId, Share>) returns (r: seq<Share>)
      requires Valid() && forall q :: q in parties && q != me ==> q in inbox
      ensures r == RowShares(p, ExtractionRows(p, EncodeAll(p, parties), |parties| - t),
        InOrder(parties, me, own, inbox))
    {
      var shares := CollectInOrder(parties, me, own, inbox);
      var extracted := vandermonde.MulShares(shares);
      r := extracted.value;
    }
  }

  class PassiveRandDoubleShr {
    const p: int
    const t: nat
    const parties: seq<PartyId>
    const vandermonde: Matrix

    ghost predicate Valid()
      reads vandermonde
    {
      && p > 1 && 2 * t < |parties| && Ascending(parties)
      && vandermonde.Valid() && vandermonde.p == p
      && vandermonde.View() == ExtractionRows(p, EncodeAll(p, parties), |parties| - t)
    }

    constructor Make(p: int, t: nat, parties: seq<PartyId>, vandermonde: Matrix)
      ensures this.p == p && this.t == t && this.parties == parties && this.vandermonde == vandermonde
    {
      this.p, this.t, this.parties, this.vandermonde := p, t, parties, vandermonde;
    }

    static method New(p: int, t: nat, parties: seq<PartyId>) returns (r: Result<PassiveRandDoubleShr, ProtocolError>)
      requires p > 1
      ensures r.Err? <==> 2 * t >= |parties|
      ensures r.Ok? ==> fresh(r.value) && fresh(r.value.vandermonde) && r.value.Valid()
      ensures r.Ok? ==> r.value.p == p && r.value.t == t && r.value.parties == Sort(parties)
    {
      if 2 * t >= |parties| { return Err(Input); }
      var sorted := Sort(parties);
      var m := ExtractionMatrix(p, sorted, |parties| - t);
      var protocol := new PassiveRandDoubleShr.Make(p, t, sorted, m);
      r := Ok(protocol);
    }

    /** Both families are received in turn and go through the same matrix. */
    method Run(me: PartyId, ownT: Share, inboxT: map<PartyId, Share>, own2T: Share, inbox2T: map<PartyId, Share>)
          returns (r: seq<DoubleShare>)
      requires Valid() && forall q :: q in parties && q != me ==> q in inboxT && q in inbox2T
      requires 2 * InOrder(parties, me, ownT, inboxT)[0].degree == InOrder(parties, me, own2T, inbox2T)[0].degree
      ensures |r| == |parties| - t
      ensures var rows := ExtractionRows(p, EncodeAll(p, parties), |parties| - t);
        forall j :: 0 <= j < |r| ==> r[j] == DoubleShare(RowShares(p, rows, InOrder(parties, me, ownT, inboxT))[j],
                                                         RowShares(p, rows, InOrder(parties, me, own2T, inbox2T))[j])
      ensures forall j :: 0 <= j < |r| ==> ValidDouble(r[j])
    {
      var sharesT := CollectInOrder(parties, me, ownT, inboxT);
      var shares2T := CollectInOrder(parties, me, own2T, inbox2T);
      var extractedT := vandermonde.MulShares(sharesT);
      var extracted2T := vandermonde.MulShares(shares2T);
      r := [];
      var j := 0;
      while j < |parties| - t
        invariant j <= |parties| - t && |r| == j
        invariant forall i :: 0 <= i < j ==>
          r[i] == DoubleShare(extractedT.value[i], extracted2T.value[i])
          && ValidDouble(r[i])
      {
        RowShareDegree(p, vandermonde.View()[j], sharesT, |sharesT|);
        RowShareDegree(p, vandermonde.View()[j], shares2T, |shares2T|);
        r := r + [DoubleShare(extractedT.value[j], extracted2T.value[j])];
        j := j + 1;
      }
    }
  }

  lemma {:induction false} RowShareDegree(p: int, row: seq<int>, shares: seq<Share>, n: nat)
    requires p > 0 && 0 < n <= |row| && n <= |shares|
    ensures RowShare(p, row, shares, n).degree == shares[0].degree
  {
    if n > 1 { RowShareDegree(p, row, shares, n - 1); }
  }

  /** The polynomial behind output j. */
  ghost function OutputPoly(p: int, points: seq<int>, outputs: nat, fs: seq<seq<int>>, j: nat): seq<int>
    requires p > 0 && points != [] && j < outputs && |fs| == |points|
  {
    Combine(ExtractionRows(p, points, outputs)[j], fs, |fs|)
  }

  /**
   * Random sharings are consistent: the parties' j-th outputs are shares of one polynomial of the
   * dealt degree, whose constant is the j-th extracted combination of the dealers' secrets.
   */
  lemma OutputsAreShared(p: int, points: seq<int>, outputs: nat, fs: seq<seq<int>>, degree: nat, x: int,
        shares: seq<Share>, j: nat)
    requires p > 0 && points != [] && j < outputs && |fs| == |points| && SharesAt(p, fs, degree, x, shares)
    ensures var out := RowShares(p, ExtractionRows(p, points, outputs), shares)[j];
      ShareOf(p, OutputPoly(p, points, outputs, fs, j), x, out) && out.degree == degree
    ensures Eval(OutputPoly(p, points, outputs, fs, j), 0) % p == Extract(p, points, outputs, ValuesAt(fs, 0))[j]
  {
    var row := ExtractionRows(p, points, outputs)[j];
    RowShareOf(p, row, fs, degree, x, shares, |fs|);
    EvalCombine(row, fs, |fs|, 0);
  }

  /** The two families of a double sharing share the same values. */
  lemma DoubleOutputsAgree(p: int, points: seq<int>, outputs: nat, fs: seq<seq<int>>, gs: seq<seq<int>>, j: nat)
    requires p > 0 && points != [] && j < outputs && |fs| == |gs| == |points|
    requires forall i :: 0 <= i < |fs| ==> Eval(fs[i], 0) == Eval(gs[i], 0)
    ensures Eval(OutputPoly(p, points, outputs, fs, j), 0) == Eval(OutputPoly(p, points, outputs, gs, j), 0)
  {
    var row := ExtractionRows(p, points, outputs)[j];
    EvalCombine(row, fs, |fs|, 0);
    EvalCombine(row, gs, |gs|, 0);
    assert ValuesAt(fs, 0) == ValuesAt(gs, 0);
  }
}
