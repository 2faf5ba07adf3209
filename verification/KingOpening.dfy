/** Opening towards a king, who reconstructs and sends the secrets back; singly and in batches. */
module KingOpening {
  import opened Wrappers
  import opened SimTypes
  import opened Zp
  import opened Polynomials
  import opened Interpolation
  import opened Shamir

  /** Opening fails when a packet holds too few items or when a reconstruction fails. */
  datatype OpenError = MissingItem(index: nat) | ShareFailure(cause: ShareError)

  /** The i-th shares of all parties, in party order. */
  ghost function Column(perParty: seq<seq<Share>>, i: nat): (r: seq<Share>)
    requires forall k :: 0 <= k < |perParty| ==> i < |perParty[k]|
    ensures |r| == |perParty| && forall k :: 0 <= k < |r| ==> r[k] == perParty[k][i]
  {
    seq(|perParty|, k requires 0 <= k < |perParty| => perParty[k][i])
  }

  /** The reconstruction of the first `n` secrets: the first failure, if there is one, is reported. */
  ghost function OpenAll(p: int, points: seq<int>, perParty: seq<seq<Share>>, n: nat): (r: Result<seq<int>, OpenError>)
    requires Prime(p) && forall k :: 0 <= k < |perParty| ==> n <= |perParty[k]|
    ensures r.Ok? ==> |r.value| == n
  {
    if n == 0 then Ok([])
    else match OpenAll(p, points, perParty, n - 1)
      case Err(e) => Err(e)
      case Ok(before) =>
        match Reconstruct(p, Column(perParty, n - 1), points)
        case Err(e) => Err(ShareFailure(e))
        case Ok(secret) => Ok(before + [secret])
  }

  lemma {:induction false} FailureStays(p: int, points: seq<int>, perParty: seq<seq<Share>>, i: nat, n: nat)
    requires Prime(p) && i <= n && forall k :: 0 <= k < |perParty| ==> n <= |perParty[k]|
    requires OpenAll(p, points, perParty, i).Err?
    ensures OpenAll(p, points, perParty, n) == OpenAll(p, points, perParty, i)
    decreases n
  {
    if i < n { FailureStays(p, points, perParty, i, n - 1); }
  }

  /** The items that `n` reads from the front of a packet give. */
  method ReadItems<T>(packet: seq<T>, n: nat) returns (r: Result<seq<T>, OpenError>)
    ensures r == if n <= |packet| then Ok(packet[..n]) else Err(MissingItem(|packet|))
  {
    var items := [];
    var i := 0;
    while i < n
      invariant i <= n && i <= |packet| && items == packet[..i]
    {
      if i >= |packet| { return Err(MissingItem(i)); }
      items := items + [packet[i]];
      i := i + 1;
    }
    r := Ok(items);
  }

  class BatchedPassiveOpenToKing {
    const p: int
    const king: PartyId
    const parties: seq<PartyId>
    const ownShares: seq<Share>

    constructor (p: int, king: PartyId, parties: seq<PartyId>, ownShares: seq<Share>)
      ensures this.p == p && this.king == king && this.parties == parties && this.ownShares == ownShares
    {
      this.p, this.king, this.parties, this.ownShares := p, king, parties, ownShares;
    }

    /** The king's receive loop: the first of everybody's shares, own ones included. */
    method CollectShares(inbox: map<PartyId, seq<Share>>) returns (r: Result<seq<seq<Share>>, OpenError>)
      requires forall q :: q in parties && q != king ==> q in inbox
      ensures r.Ok? <==> forall q :: q in parties && q != king ==> |ownShares| <= |inbox[q]|
      ensures r.Err? ==> r.error.MissingItem?
      ensures r.Ok? ==> |r.value| == |parties| && forall i :: 0 <= i < |parties| ==>
        r.value[i] == (if parties[i] == king then ownShares else inbox[parties[i]][..|ownShares|])
    {
      var perParty: seq<seq<Share>> := [];
      var i := 0;
      while i < |parties|
        invariant i <= |parties| && |perParty| == i
        invariant forall j :: 0 <= j < i && parties[j] != king ==> |ownShares| <= |inbox[parties[j]]|
        invariant forall j :: 0 <= j < i ==>
          perParty[j] == (if parties[j] == king then ownShares else inbox[parties[j]][..|ownShares|])
      {
        if parties[i] != king {
          var shares := ReadItems(inbox[parties[i]], |ownShares|);
          if shares.Err? { return Err(shares.error); }
          perParty := perParty + [shares.value];
        } else {
          perParty := perParty + [ownShares];
        }
        i := i + 1;
      }
      r := Ok(perParty);
    }

    /** The king's reconstruction loop. */
    method Secrets(perParty: seq<seq<Share>>) returns (r: Result<seq<int>, OpenError>)
      requires Prime(p) && |perParty| == |parties| && forall k :: 0 <= k < |perParty| ==> |perParty[k]| == |ownShares|
      ensures r == OpenAll(p, EncodeAll(p, parties), perParty, |ownShares|)
    {
      hide Reconstruct;
      var secrets: seq<int> := [];
      ghost var points := EncodeAll(p, parties);
      var i := 0;
      while i < |ownShares|
        invariant i <= |ownShares| && Ok(secrets) == OpenAll(p, points, perParty, i)
      {
        var shares: seq<Share> := [];
        var k := 0;
        while k < |perParty|
          invariant k <= |perParty| && shares == Column(perParty, i)[..k]
        {
          shares := shares + [perParty[k][i]];
          k := k + 1;
        }
        assert shares == Column(perParty, i);
        EncodedCanonical(p, parties);
        var secret := SecretFromShares(p, shares, EncodeAll(p, parties));
        if secret.Err? {
          FailureStays(p, points, perParty, i + 1, |ownShares|);
          return Err(ShareFailure(secret.error));
        }
        secrets := secrets + [secret.value];
        i := i + 1;
      }
      r := Ok(secrets);
    }

    /** What the king reconstructs from: its own shares and the front of every other party's packet. */
    ghost function PerParty(inbox: map<PartyId, seq<Share>>): (r: seq<seq<Share>>)
      requires forall q :: q in parties && q != king ==> q in inbox && |ownShares| <= |inbox[q]|
      ensures |r| == |parties| && forall i :: 0 <= i < |r| ==> |r[i]| == |ownShares|
    {
      seq(|parties|, i requires 0 <= i < |parties| =>
        if parties[i] == king then ownShares else inbox[parties[i]][..|ownShares|])
    }

    /** A run at the king: what it opens is also what it sends to all others. */
    method RunKing(inbox: map<PartyId, seq<Share>>)
          returns (r: Result<seq<int>, OpenError>, packets: map<PartyId, seq<int>>)
      requires Prime(p) && forall q :: q in parties && q != king ==> q in inbox
      ensures if forall q :: q in parties && q != king ==> |ownShares| <= |inbox[q]|
        then r == OpenAll(p, EncodeAll(p, parties), PerParty(inbox), |ownShares|)
        else r.Err? && r.error.MissingItem?
      ensures packets == if r.Ok? then map q | q in parties && q != king :: r.value else map[]
    {
      packets := map[];
      var collected := CollectShares(inbox);
      if collected.Err? { return Err(collected.error), packets; }
      assert collected.value == PerParty(inbox);
      r := Secrets(collected.value);
      if r.Ok? {
        packets := map q | q in parties && q != king :: r.value;
      }
    }

    /** A run at any other party: the shares go out, and the secrets are read from the king's packet. */
    method RunOther(fromKing: seq<int>) returns (sent: seq<Share>, r: Result<seq<int>, OpenError>)
      ensures sent == ownShares
      ensures r == if |ownShares| <= |fromKing| then Ok(fromKing[..|ownShares|]) else Err(MissingItem(|fromKing|))
    {
      sent := ownShares;
      r := ReadItems(fromKing, |ownShares|);
    }
  }

  lemma EncodedCanonical(p: int, parties: seq<PartyId>)
    requires p > 1
    ensures AllCanonical(p, EncodeAll(p, parties))
  {
    forall i | 0 <= i < |parties| ensures Canonical(p, EncodeAll(p, parties)[i]) {
      Reduced(p, parties[i] + 1);
    }
  }

  /** The values shared by the polynomials. */
  function Secrets(p: int, fs: seq<seq<int>>, n: nat): (r: seq<int>)
    requires p > 0 && n <= |fs|
    ensures |r| == n && forall i :: 0 <= i < n ==> r[i] == Eval(fs[i], 0) % p
  {
    seq(n, i requires 0 <= i < n => Eval(fs[i], 0) % p)
  }

  /** The i-th column holds every party's share of the i-th polynomial. */
  ghost predicate ColumnsShared(p: int, fs: seq<seq<int>>, points: seq<int>, perParty: seq<seq<Share>>)
    requires p > 0
  {
    && |perParty| == |points|
    && (forall k :: 0 <= k < |perParty| ==> |perParty[k]| == |fs|)
    && (forall i, k :: 0 <= i < |fs| && 0 <= k < |points| ==> ShareOf(p, fs[i], points[k], perParty[k][i]))
  }

  /** Opening to the king is correct: enough parties at distinct points get exactly the shared values. */
  lemma {:induction false} KingOpens(p: int, fs: seq<seq<int>>, points: seq<int>, perParty: seq<seq<Share>>, n: nat)
    requires Prime(p) && ColumnsShared(p, fs, points, perParty) && n <= |fs|
    requires points != [] && AllDistinct(p, points) && forall i :: 0 <= i < |fs| ==> |fs[i]| <= |points|
    ensures OpenAll(p, points, perParty, n) == Ok(Secrets(p, fs, n))
  {
    hide Reconstruct, ShareOf, Eval;
    if n > 0 {
      KingOpens(p, fs, points, perParty, n - 1);
      ReconstructionIsExact(p, fs[n - 1], points, Column(perParty, n - 1));
      assert Secrets(p, fs, n) == Secrets(p, fs, n - 1) + [Eval(fs[n - 1], 0) % p];
    }
  }
}
