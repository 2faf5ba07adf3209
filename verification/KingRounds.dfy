/**
 * Openings to a king over the network: everybody sends its shares to the king, who reconstructs the
 * values and sends them to everybody. Shares travel as two items each.
 */
module KingRounds {
  import opened Wrappers
  import opened SimTypes
  import opened Kernel
  import opened Sequences
  import opened Scripts
  import opened Zp
  import opened Shamir
  import opened KingOpening

  /** The sorted party list, the king, and the bytes that items take on the wire. */
  datatype Net = Net(order: seq<PartyId>, king: PartyId, width: seq<int> -> nat)

  ghost predicate ValidNet(parties: seq<PartyId>, net: Net) {
    Distinct(net.order) && (forall p :: p in parties <==> p in net.order) && net.king in net.order
  }

  // Shares on the wire: two items each.

  function Items(shares: seq<Share>): (r: seq<int>)
    ensures |r| == 2 * |shares|
  {
    seq(2 * |shares|, i requires 0 <= i < 2 * |shares| =>
      if i % 2 == 0 then shares[i / 2].share else shares[i / 2].degree)
  }

  function Encode(net: Net, items: seq<int>): Packet { Packet(items, net.width(items)) }

  function ValueAt(packet: Packet, i: nat): int
    requires 2 * i + 1 < |packet.items|
  {
    packet.items[2 * i]
  }

  function DegreeAt(packet: Packet, i: nat): int
    requires 2 * i + 1 < |packet.items|
  {
    packet.items[2 * i + 1]
  }

  /** The first `n` shares of a packet can be read. */
  predicate HoldsShares(packet: Packet, n: nat) {
    2 * n <= |packet.items| && forall i :: 0 <= i < n ==> DegreeAt(packet, i) >= 0
  }

  function ReadShares(packet: Packet, n: nat): (r: seq<Share>)
    requires HoldsShares(packet, n)
    ensures |r| == n && forall i :: 0 <= i < n ==> r[i] == Share(ValueAt(packet, i), DegreeAt(packet, i))
  {
    seq(n, i requires 0 <= i < n => Share(ValueAt(packet, i), DegreeAt(packet, i)))
  }

  /** Packets carry shares unchanged. */
  lemma ReadsBack(net: Net, shares: seq<Share>)
    ensures HoldsShares(Encode(net, Items(shares)), |shares|)
    ensures ReadShares(Encode(net, Items(shares)), |shares|) == shares
  {
    var packet := Encode(net, Items(shares));
    forall i | 0 <= i < |shares|
      ensures ValueAt(packet, i) == shares[i].share && DegreeAt(packet, i) == shares[i].degree
    {
    }
  }

  // The moves of the parties.

  function Tells(to: seq<PartyId>): (r: seq<Move>)
    ensures |r| == |to| && forall i :: 0 <= i < |r| ==> r[i] == Tell(to[i])
  {
    seq(|to|, i requires 0 <= i < |to| => Tell(to[i]))
  }

  function Asks(from: seq<PartyId>): (r: seq<Move>)
    ensures |r| == |from| && forall i :: 0 <= i < |r| ==> r[i] == Ask(from[i])
  {
    seq(|from|, i requires 0 <= i < |from| => Ask(from[i]))
  }

  /** The king collects from all others and answers them; the others send and wait. */
  function KingMoves(order: seq<PartyId>, king: PartyId, p: PartyId): seq<Move> {
    if p == king then Asks(Without(order, p)) + Tells(Without(order, p)) else [Tell(king), Ask(king)]
  }

  lemma KingMoveAt(order: seq<PartyId>, king: PartyId, p: PartyId, i: nat)
    requires i < |KingMoves(order, king, p)|
    ensures var others := Without(order, p);
      KingMoves(order, king, p)[i] ==
        if p != king then (if i == 0 then Tell(king) else Ask(king))
        else if i < |others| then Ask(others[i]) else Tell(others[i - |others|])
  {
  }

  lemma KingMovesWith(order: seq<PartyId>, king: PartyId, p: PartyId, q: PartyId)
    requires p in order
    ensures Tell(q) in KingMoves(order, king, p) <==> (if p == king then q in order && q != king else q == king)
    ensures Ask(q) in KingMoves(order, king, p) <==> (if p == king then q in order && q != king else q == king)
  {
    var moves, others := KingMoves(order, king, p), Without(order, p);
    if p != king {
      assert moves[0] == Tell(king) && moves[1] == Ask(king);
    } else {
      if q in others {
        var i := IndexOf(others, q);
        assert moves[i] == Ask(q) && moves[|others| + i] == Tell(q);
      } else {
        forall i | 0 <= i < |moves| ensures moves[i] != Tell(q) && moves[i] != Ask(q) {
          KingMoveAt(order, king, p, i);
          if i < |others| { assert others[i] in others; } else { assert others[i - |others|] in others; }
        }
      }
    }
  }

  lemma KingMovesDistinct(order: seq<PartyId>, king: PartyId, p: PartyId)
    requires Distinct(order)
    ensures Distinct(KingMoves(order, king, p))
  {
    hide KingMoves;
    WithoutCount(order, p);
    var moves := KingMoves(order, king, p);
    forall i, j | 0 <= i < j < |moves| ensures moves[i] != moves[j] {
      KingMoveAt(order, king, p, i);
      KingMoveAt(order, king, p, j);
      KingMovesCount(order, king, p);
    }
  }

  lemma KingMovesCount(order: seq<PartyId>, king: PartyId, p: PartyId)
    ensures |KingMoves(order, king, p)| == if p == king then 2 * |Without(order, p)| else 2
  {
  }

  lemma KingSensible(parties: seq<PartyId>, net: Net, masks: seq<seq<Share>>, values: seq<int>)
    requires ValidNet(parties, net)
    ensures Sensible(parties, KingPhase(net, masks, values))
  {
    hide KingMoves;
    var f := KingPhase(net, masks, values);
    forall p | p in parties ensures Distinct(f.moves(p)) { KingMovesDistinct(net.order, net.king, p); }
    forall p, q | p in parties && Tell(q) in f.moves(p) ensures q in parties && Ask(p) in f.moves(q) {
      KingMovesWith(net.order, net.king, p, q);
      KingMovesWith(net.order, net.king, q, p);
    }
    forall p, q | p in parties && Ask(q) in f.moves(p) ensures q in parties && Tell(p) in f.moves(q) {
      KingMovesWith(net.order, net.king, p, q);
      KingMovesWith(net.order, net.king, q, p);
    }
    forall p, q, i, j | Meets(parties, f, p, i, q, j) ensures f.rank(q, j) < f.rank(p, i) {
      KingRanks(parties, net, masks, values, p, i, q, j);
    }
  }

  /** The king hears from a party before it answers it. */
  lemma KingRanks(parties: seq<PartyId>, net: Net, masks: seq<seq<Share>>, values: seq<int>, p: PartyId, i: nat,
        q: PartyId, j: nat)
    requires ValidNet(parties, net) && Meets(parties, KingPhase(net, masks, values), p, i, q, j)
    ensures KingRank(net, q, j) < KingRank(net, p, i)
  {
    hide KingMoves, ValidNet;
    KingMoveAt(net.order, net.king, p, i);
    KingMoveAt(net.order, net.king, q, j);
    if p == net.king { KingOthers(net, i); } else { KingOthers(net, j); }
  }

  lemma KingOthers(net: Net, i: nat)
    requires i < |KingMoves(net.order, net.king, net.king)|
    ensures var others := Without(net.order, net.king); others[if i < |others| then i else i - |others|] != net.king
  {
    var others := Without(net.order, net.king);
    assert others[if i < |others| then i else i - |others|] in others;
  }

  /** The king answers when it has collected from everyone. */
  lemma KingTellsLate(net: Net, i: nat)
    requires i < |KingMoves(net.order, net.king, net.king)| && KingMoves(net.order, net.king, net.king)[i].Tell?
    ensures |Without(net.order, net.king)| <= i
  {
  }

  // What the king and the others have from the results of their calls.

  /** The first `n` shares in a result. */
  function SharesIn(res: Res, n: nat): (r: seq<Share>)
    ensures |r| == n
  {
    if res.Got? && HoldsShares(res.packet, n) then ReadShares(res.packet, n) else seq(n, i => Share(0, 0))
  }

  /** All parties' shares at the king, who has collected the others' in the calls from `base` on. */
  function AtKing(net: Net, h: seq<Res>, base: nat, mine: seq<Share>): (r: seq<seq<Share>>)
    requires base + |Without(net.order, net.king)| <= |h|
    ensures |r| == |net.order| && forall k :: 0 <= k < |r| ==> |r[k]| == |mine|
  {
    var others := Without(net.order, net.king);
    seq(|net.order|, i requires 0 <= i < |net.order| =>
      if net.order[i] == net.king then mine else SharesIn(h[base + IndexOf(others, net.order[i])], |mine|))
  }

  ghost function OpenedByKing(p: int, points: seq<int>, net: Net, h: seq<Res>, base: nat,
        mine: seq<Share>): Result<seq<int>, OpenError>
    requires Prime(p) && base + |Without(net.order, net.king)| <= |h|
  {
    OpenAll(p, points, AtKing(net, h, base, mine), |mine|)
  }

  /** What the opening whose calls start at `base` gives party `who`. */
  ghost function OpenedAt(p: int, points: seq<int>, net: Net, who: PartyId, h: seq<Res>, base: nat,
        mine: seq<Share>): Result<seq<int>, OpenError>
    requires Prime(p) && base + |KingMoves(net.order, net.king, who)| <= |h|
  {
    if who == net.king then OpenedByKing(p, points, net, h, base, mine)
    else if h[base + 1].Got? && |mine| <= |h[base + 1].packet.items| then Ok(h[base + 1].packet.items[..|mine|])
    else Err(MissingItem(0))
  }

  lemma OwnRow(net: Net, h: seq<Res>, base: nat, mine: seq<Share>, k: nat)
    requires base + |Without(net.order, net.king)| <= |h| && k < |net.order|
    ensures net.order[k] == net.king ==> AtKing(net, h, base, mine)[k] == mine
    ensures net.order[k] != net.king ==>
      AtKing(net, h, base, mine)[k] == SharesIn(h[base + IndexOf(Without(net.order, net.king), net.order[k])], |mine|)
  {
    hide Without, IndexOf, SharesIn;
  }

  // The phase.

  ghost function KingPacket(net: Net, masks: seq<seq<Share>>, values: seq<int>, q: PartyId, p: PartyId): Packet {
    if p == net.king && q in net.order && |masks| == |net.order| then Encode(net, Items(masks[IndexOf(net.order, q)]))
    else Encode(net, values)
  }

  function KingRank(net: Net, p: PartyId, i: nat): nat {
    if p == net.king then (if i < |Without(net.order, p)| then 1 else 2)
    else if i == 0 then 0 else 3
  }

  /** Everyone sends its shares to the king, and the king sends the opened values to everyone. */
  ghost function KingPhase(net: Net, masks: seq<seq<Share>>, values: seq<int>): Phase {
    Phase((p: PartyId) => KingMoves(net.order, net.king, p),
      (q: PartyId, p: PartyId) => KingPacket(net, masks, values, q, p),
      (p: PartyId, i: nat) => KingRank(net, p, i))
  }

  /** The shares of a party arrive at the king as they were sent. */
  lemma MasksArrive(net: Net, masks: seq<seq<Share>>, values: seq<int>, q: PartyId)
    requires q in net.order && |masks| == |net.order|
    ensures var packet, sent := KingPacket(net, masks, values, q, net.king), masks[IndexOf(net.order, q)];
      HoldsShares(packet, |sent|) && SharesIn(Got(q, packet), |sent|) == sent
  {
    hide Items, HoldsShares, ReadShares;
    ReadsBack(net, masks[IndexOf(net.order, q)]);
  }

  /** The first calls of the phase, from `base` on, have given the king what they have to. */
  ghost predicate Collected(net: Net, masks: seq<seq<Share>>, values: seq<int>, h: seq<Res>, base: nat) {
    var others := Without(net.order, net.king);
    && base + |others| <= |h|
    && forall j :: 0 <= j < |others| ==>
      h[base + j] == Got(others[j], KingPacket(net, masks, values, others[j], net.king))
  }

  /** The king, once it has collected, holds everybody's shares. */
  lemma KingCollects(net: Net, masks: seq<seq<Share>>, values: seq<int>, h: seq<Res>, base: nat, count: nat)
    requires Distinct(net.order) && net.king in net.order && |masks| == |net.order|
    requires (forall k :: 0 <= k < |masks| ==> |masks[k]| == count) && Collected(net, masks, values, h, base)
    ensures AtKing(net, h, base, masks[IndexOf(net.order, net.king)]) == masks
  {
    hide SharesIn, KingPacket, AtKing, Without, IndexOf;
    var mine := masks[IndexOf(net.order, net.king)];
    forall k | 0 <= k < |net.order| ensures AtKing(net, h, base, mine)[k] == masks[k] {
      IndexOfAt(net.order, k);
      OwnRow(net, h, base, mine, k);
      if net.order[k] != net.king {
        MasksArrive(net, masks, values, net.order[k]);
      }
    }
  }

  /** So everybody has the values in the end, if they are what the king reconstructs. */
  lemma AllOpen(p: int, points: seq<int>, net: Net, masks: seq<seq<Share>>, values: seq<int>, who: PartyId,
        h: seq<Res>, base: nat)
    requires Prime(p) && Distinct(net.order) && net.king in net.order && who in net.order && |masks| == |net.order|
    requires forall k :: 0 <= k < |masks| ==> |masks[k]| == |values|
    requires OpenAll(p, points, masks, |values|) == Ok(values)
    requires base + |KingMoves(net.order, net.king, who)| <= |h|
    requires if who == net.king then Collected(net, masks, values, h, base)
      else h[base + 1] == Got(net.king, KingPacket(net, masks, values, net.king, who))
    ensures OpenedAt(p, points, net, who, h, base, masks[IndexOf(net.order, who)]) == Ok(values)
  {
    hide AtKing, OpenAll, Items;
    if who == net.king {
      KingCollects(net, masks, values, h, base, |values|);
    } else {
      assert values[..|values|] == values;
    }
  }
}
