/** What the parties of a deal and an opening over the network reconstruct is the dealer's secret. */
module OpenedSecret {
  import opened Wrappers
  import opened SimTypes
  import opened Kernel
  import opened Zp
  import opened Polynomials
  import opened Shamir
  import opened DealThenOpen

  /** The dealt values are a Shamir sharing by the polynomial `f`. */
  ghost predicate DealsShamir(prime: int, f: seq<int>, d: Deal)
    requires prime > 0
  {
    |d.shares| == |d.receivers|
    && forall i :: 0 <= i < |d.receivers| ==> Eq(prime, d.shares[i], Eval(f, EncodeParty(prime, d.receivers[i])))
  }

  /** No two parties have the same point. */
  ghost predicate PointsApart(prime: int, parties: seq<PartyId>)
    requires prime > 0
  {
    forall p, q :: p in parties && q in parties && p != q ==> !Eq(prime, EncodeParty(prime, p), EncodeParty(prime, q))
  }

  function AsShares(values: seq<int>, degree: nat): (r: seq<Share>)
    ensures |r| == |values| && forall i :: 0 <= i < |r| ==> r[i] == Share(values[i], degree)
  {
    seq(|values|, i requires 0 <= i < |values| => Share(values[i], degree))
  }

  /**
   * In every run of the deal and the opening that has ended, under any delays, what any party
   * collected, in whatever order it arrived, reconstructs to the dealer's secret.
   */
  lemma DealtSecretIsOpened(cfg: Config, d: Deal, m: nat, p: PartyId, prime: int, f: seq<int>)
    requires Deals(cfg, d) && p in cfg.parties && Halted(cfg, Run(cfg, m))
    requires Prime(prime) && DealsShamir(prime, f, d) && PointsApart(prime, cfg.parties) && 0 < |f| <= |cfg.parties|
    ensures |HistOf(Run(cfg, m), p)| > |Dealt(d, p)|
    ensures var h := HistOf(Run(cfg, m), p);
      Reconstruct(prime, AsShares(Shares(cfg.parties, d, p, h), |f| - 1),
        EncodeAll(prime, Owners(cfg.parties, d, p, h))) == Ok(Eval(f, 0) % prime)
  {
    hide Run, Wf, Eval, Eq, Reconstruct, Call, Owners, Shares, Halted;
    DealThenOpenCompletes(cfg, d, m, p);
    var h := HistOf(Run(cfg, m), p);
    var owners, shares := Owners(cfg.parties, d, p, h), AsShares(Shares(cfg.parties, d, p, h), |f| - 1);
    var points := EncodeAll(prime, owners);
    forall i | 0 <= i < |shares| ensures Shamir.ShareOf(prime, f, points[i], shares[i]) {
      assert owners[i] in owners;
      assert shares[i].share == DealThenOpen.ShareOf(d, owners[i]);
    }
    forall i, j | 0 <= i < j < |points| ensures !Eq(prime, points[i], points[j]) {
      assert owners[i] in owners && owners[j] in owners && owners[i] != owners[j];
    }
    ReconstructionIsExact(prime, f, points, shares);
  }
}
