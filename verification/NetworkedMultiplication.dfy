/**
 * The whole multiplication as a protocol over the network: the calls that a party makes for four
 * families of deals and two openings to the king, what it computes from their results, and what every
 * run of it comes to.
 */
module NetworkedMultiplication {
  import opened Wrappers
  import opened SimTypes
  import opened Kernel
  import opened Sequences
  import opened Termination
  import opened DelayIndependence
  import opened Scripts
  import opened KingRounds
  import opened Zp
  import Polynomials
  import opened Shamir
  import opened Matrices
  import opened Extraction
  import opened RandomSharing
  import opened KingOpening
  import opened Triples
  import opened BeaverMul
  import opened DN07

  // --- The protocol ---

  /**
   * The session to be run over the network. A party uses of the session what is public, what it deals
   * itself and its operand shares.
   */
  datatype Plan = Plan(session: Session, net: Net)

  ghost predicate ValidPlan(parties: seq<PartyId>, pl: Plan) {
    Valid(pl.session) && ValidNet(parties, pl.net) && pl.session.points == EncodeAll(pl.session.p, pl.net.order)
  }

  // The moves of the parties.

  /** A party deals to all, itself included, takes its own share, and collects the others' in order. */
  function DealMoves(order: seq<PartyId>, p: PartyId): seq<Move> {
    Tells(order) + [Ask(p)] + Asks(Without(order, p))
  }

  // What a party knows from the results of its calls.

  /** The number of calls in one family of deals. */
  function DealLength(pl: Plan): nat { 2 * |pl.net.order| }

  /** The share in a result, if there is one. */
  function ShareIn(res: Res): Share {
    if res.Got? && HoldsShares(res.packet, 1) then ReadShares(res.packet, 1)[0] else Share(0, 0)
  }

  /** The shares that `p` was dealt, in party order, by the deals whose calls start at `base`. */
  function Received(pl: Plan, p: PartyId, h: seq<Res>, base: nat): (r: seq<Share>)
    requires base + DealLength(pl) <= |h| && p in pl.net.order && |Without(pl.net.order, p)| < |pl.net.order|
    ensures |r| == |pl.net.order|
  {
    var n, others := |pl.net.order|, Without(pl.net.order, p);
    seq(n, i requires 0 <= i < n =>
      if pl.net.order[i] == p then ShareIn(h[base + n])
        else ShareIn(h[base + n + 1 + IndexOf(others, pl.net.order[i])]))
  }

  /** The `l`-th random share that the extraction matrix makes of the dealt ones. */
  ghost function RandomFrom(s: Session, dealt: seq<Share>, l: nat): Share
    requires s.p > 0 && s.points != [] && |dealt| == |s.points| && l < |s.points| - s.t
  {
    RowShares(s.p, ExtractionRows(s.p, s.points, |s.points| - s.t), dealt)[l]
  }

  /** A party's share of everything random: from the four families of deals, in the order of the calls. */
  ghost function RandomOf(pl: Plan, p: PartyId, h: seq<Res>, family: nat, l: nat): Share
    requires Ready(pl, p, h) && family < 4 && l < pl.session.count
  {
    RandomFrom(pl.session, Received(pl, p, h, StartOf(pl, family, p)), l)
  }

  /** The deals are done. */
  ghost predicate Ready(pl: Plan, p: PartyId, h: seq<Res>) {
    && Valid(pl.session) && |pl.session.points| == |pl.net.order| && p in pl.net.order
      && |Without(pl.net.order, p)| == |pl.net.order| - 1
    && StartOf(pl, 4, p) <= |h|
  }

  /** Where the calls of phase `n` start: four families of deals, then two openings. */
  function StartOf(pl: Plan, n: nat, p: PartyId): nat {
    var d, k := DealLength(pl), |KingMoves(pl.net.order, pl.net.king, p)|;
    if n == 0 then 0
    else if n == 1 then d
    else if n == 2 then 2 * d
    else if n == 3 then 3 * d
    else if n == 4 then 4 * d
    else if n == 5 then 4 * d + k
    else 4 * d + 2 * k
  }

  function PhaseOf(pl: Plan, p: PartyId, m: nat): nat {
    if m < StartOf(pl, 1, p) then 0
    else if m < StartOf(pl, 2, p) then 1
    else if m < StartOf(pl, 3, p) then 2
    else if m < StartOf(pl, 4, p) then 3
    else if m < StartOf(pl, 5, p) then 4
    else if m < StartOf(pl, 6, p) then 5
    else 6
  }

  /** What `p` contributes to the opening in triple generation. */
  ghost function MyTripleMasks(pl: Plan, p: PartyId, h: seq<Res>): (r: seq<Share>)
    requires Ready(pl, p, h)
    ensures |r| == pl.session.count
  {
    seq(pl.session.count, l requires 0 <= l < pl.session.count =>
      MaskProduct(pl.session.p, RandomOf(pl, p, h, 0, l), RandomOf(pl, p, h, 1, l), MyDouble(pl, p, h, l)))
  }

  ghost function MyDouble(pl: Plan, p: PartyId, h: seq<Res>, l: nat): DoubleShare
    requires Ready(pl, p, h) && l < pl.session.count
  {
    DoubleShare(RandomOf(pl, p, h, 2, l), RandomOf(pl, p, h, 3, l))
  }

  /** What `p` contributes to the opening in the multiplication: both operands of every product, masked. */
  ghost function MyOperandMasks(pl: Plan, p: PartyId, h: seq<Res>): (r: seq<Share>)
    requires Ready(pl, p, h)
    ensures |r| == 2 * pl.session.count
  {
    var s, k := pl.session, IndexOf(pl.net.order, p);
    seq(2 * s.count, i requires 0 <= i < 2 * s.count =>
      if i % 2 == 0 then SubShare(s.p, s.xShares[k][i / 2], RandomOf(pl, p, h, 0, i / 2))
      else SubShare(s.p, s.yShares[k][i / 2], RandomOf(pl, p, h, 1, i / 2)))
  }

  function FamilyOf(s: Session, n: nat): Deals {
    if n == 0 then s.a else if n == 1 then s.b else if n == 2 then s.r else s.r2
  }

  /** The share that `p` deals to `to`. */
  ghost function DealtBy(pl: Plan, d: Deals, p: PartyId, to: PartyId): Share
    requires p in pl.net.order && to in pl.net.order && |d.dealt| == |pl.net.order|
      && forall k :: 0 <= k < |d.dealt| ==>
      |d.dealt[k]| == |pl.net.order|
  {
    d.dealt[IndexOf(pl.net.order, to)][IndexOf(pl.net.order, p)]
  }

  function MovesAt(pl: Plan, n: nat, p: PartyId): seq<Move> {
    if n < 4 then DealMoves(pl.net.order, p) else KingMoves(pl.net.order, pl.net.king, p)
  }

  /** What `p` sends to `to` in phase `n`; nothing if the opening has failed. */
  ghost function Content(pl: Plan, n: nat, p: PartyId, h: seq<Res>, to: PartyId): Option<Packet>
    requires Valid(pl.session) && |pl.session.points| == |pl.net.order| && p in pl.net.order && to in pl.net.order
    requires n < 6 && (n >= 4 ==>
      Ready(pl, p, h)
      && (p == pl.net.king ==> StartOf(pl, n, p) + |Without(pl.net.order, pl.net.king)| <= |h|))
  {
    if n < 4 then Some(Encode(pl.net, Items([DealtBy(pl, FamilyOf(pl.session, n), p, to)])))
    else
      var mine := if n == 4 then MyTripleMasks(pl, p, h) else MyOperandMasks(pl, p, h);
      if p != pl.net.king then Some(Encode(pl.net, Items(mine)))
      else match OpenedByKing(pl.session.p, pl.session.points, pl.net, h, StartOf(pl, n, p), mine)
        case Ok(values) => Some(Encode(pl.net, values))
        case Err(_) => None
  }

  /** The packet that the i-th call of `p` returned can be read. */
  predicate Legible(pl: Plan, p: PartyId, i: nat, packet: Packet) {
    var n := PhaseOf(pl, p, i);
    var count := if n == 4 then pl.session.count else 2 * pl.session.count;
    if n < 4 then HoldsShares(packet, 1)
    else if p == pl.net.king then HoldsShares(packet, count)
    else count <= |packet.items|
  }

  predicate AllLegible(pl: Plan, p: PartyId, h: seq<Res>) {
    forall i :: 0 <= i < |h| && h[i].Got? ==> Legible(pl, p, i, h[i].packet)
  }

  /** The next network call of party `p`. A packet that cannot be read, or a failed opening, ends its run. */
  ghost function Call(pl: Plan, p: PartyId, h: seq<Res>): Op
    requires Valid(pl.session) && |pl.session.points| == |pl.net.order| && Distinct(pl.net.order)
      && p in pl.net.order && pl.net.king in pl.net.order
  {
    Shape(pl, p, |h|);
    var n := PhaseOf(pl, p, |h|);
    if n == 6 || !AllLegible(pl, p, h) then Finish
    else match MovesAt(pl, n, p)[|h| - StartOf(pl, n, p)]
      case Ask(q) => RecvFrom(q)
      case Tell(to) =>
        if to !in pl.net.order then Finish
        else match Content(pl, n, p, h, to)
          case Some(packet) => Op.Send(to, packet)
          case None => Finish
  }

  lemma Sizes(pl: Plan, p: PartyId)
    requires Distinct(pl.net.order) && p in pl.net.order
    ensures |Without(pl.net.order, p)| == |pl.net.order| - 1 && |DealMoves(pl.net.order, p)| == DealLength(pl)
    ensures |KingMoves(pl.net.order, pl.net.king, p)| == if p == pl.net.king then 2 * (|pl.net.order| - 1) else 2
  {
    WithoutCount(pl.net.order, p);
  }

  /** The calls of a phase, by their number. */
  lemma PhaseCalls(pl: Plan, p: PartyId, m: nat)
    requires Distinct(pl.net.order) && p in pl.net.order
    ensures var n := PhaseOf(pl, p, m);
      n < 6 ==>
        StartOf(pl, n, p) <= m < StartOf(pl, n, p) + |MovesAt(pl, n, p)|
        && StartOf(pl, n + 1, p) == StartOf(pl, n, p) + |MovesAt(pl, n, p)|
    ensures PhaseOf(pl, p, m) >= 4 ==> StartOf(pl, 4, p) <= m
  {
    hide KingMoves, DealMoves, DealLength, Without, Distinct;
    Sizes(pl, p);
  }

  lemma Shape(pl: Plan, p: PartyId, m: nat)
    requires Distinct(pl.net.order) && p in pl.net.order && pl.net.king in pl.net.order
    ensures var n := PhaseOf(pl, p, m);
      n < 6 ==>
        StartOf(pl, n, p) <= m < StartOf(pl, n, p) + |MovesAt(pl, n, p)|
        && StartOf(pl, n + 1, p) == StartOf(pl, n, p) + |MovesAt(pl, n, p)|
    ensures |Without(pl.net.order, p)| == |pl.net.order| - 1
      && |Without(pl.net.order, pl.net.king)| == |pl.net.order| - 1
    ensures PhaseOf(pl, p, m) >= 4 ==> StartOf(pl, 4, p) <= m
    ensures var n := PhaseOf(pl, p, m);
      4 <= n < 6 && p == pl.net.king && MovesAt(pl, n, p)[m - StartOf(pl, n, p)].Tell? ==>
        StartOf(pl, n, p) + |Without(pl.net.order, pl.net.king)| <= m
  {
    hide KingMoves, DealMoves, DealLength, Without, Distinct, StartOf, PhaseOf;
    Sizes(pl, p);
    Sizes(pl, pl.net.king);
    PhaseCalls(pl, p, m);
    var n := PhaseOf(pl, p, m);
    if 4 <= n < 6 && p == pl.net.king && MovesAt(pl, n, p)[m - StartOf(pl, n, p)].Tell? {
      KingTellsLate(pl.net, m - StartOf(pl, n, p));
    }
  }

  /** The simulation runs the session, under whatever delays. */
  ghost predicate Multiplies(cfg: Config, pl: Plan) {
    && ValidConfig(cfg) && ValidPlan(cfg.parties, pl)
    && forall p, h :: cfg.prog(p, h) == if p in pl.net.order then Call(pl, p, h) else Finish
  }

  /** The products of `p`, once its calls are made. */
  ghost function Outputs(pl: Plan, p: PartyId, h: seq<Res>): Result<seq<Share>, OpenError>
    requires Ready(pl, p, h) && StartOf(pl, 6, p) <= |h|
  {
    var s := pl.session;
    var masks := OpenedAt(pl.session.p, pl.session.points, pl.net, p, h, StartOf(pl, 4, p), MyTripleMasks(pl, p, h));
    var operands := OpenedAt(pl.session.p, pl.session.points, pl.net, p, h, StartOf(pl, 5, p),
      MyOperandMasks(pl, p, h));
    if masks.Err? then Err(masks.error)
    else if operands.Err? then Err(operands.error)
    else if |masks.value| != s.count || |operands.value| != 2 * s.count then Err(MissingItem(0))
    else Ok(ProductsFrom(pl, p, h, masks.value, operands.value))
  }

  ghost function MyTriple(pl: Plan, p: PartyId, h: seq<Res>, mask: int, l: nat): ShamirTriple
    requires Ready(pl, p, h) && l < pl.session.count
  {
    ShamirTriple(RandomOf(pl, p, h, 0, l), RandomOf(pl, p, h, 1, l), Unmask(pl.session.p, mask, MyDouble(pl, p, h, l)))
  }

  /** The products of `p`, from the values opened for the triples and for the operands. */
  ghost function ProductsFrom(pl: Plan, p: PartyId, h: seq<Res>, masks: seq<int>, operands: seq<int>): (r: seq<Share>)
    requires Ready(pl, p, h) && |masks| == pl.session.count && |operands| == 2 * pl.session.count
    ensures |r| == pl.session.count
  {
    seq(pl.session.count, l requires 0 <= l < pl.session.count =>
      Product(pl.session.p, MyTriple(pl, p, h, masks[l], l), operands[2 * l], operands[2 * l + 1]))
  }

  // --- The run ---

  // The phases.

  ghost function DealPacket(pl: Plan, d: Deals, q: PartyId, p: PartyId): Packet {
    if q in pl.net.order && p in pl.net.order && |d.dealt| == |pl.net.order| && forall k :: 0 <= k < |d.dealt| ==>
      |d.dealt[k]| == |pl.net.order|
    then Encode(pl.net, Items([DealtBy(pl, d, q, p)])) else Encode(pl.net, [])
  }

  /** Everyone deals to everyone. */
  ghost function DealPhase(pl: Plan, d: Deals): Phase {
    Phase((p: PartyId) => DealMoves(pl.net.order, p), (q: PartyId, p: PartyId) => DealPacket(pl, d, q, p),
      (p: PartyId, i: nat) => if i < |pl.net.order| then 0 else 1)
  }

  lemma DealMoveAt(order: seq<PartyId>, p: PartyId, i: nat)
    requires i < |DealMoves(order, p)|
    ensures |DealMoves(order, p)| == |order| + 1 + |Without(order, p)|
    ensures var n := |order|;
      DealMoves(order, p)[i] ==
        if i < n then Tell(order[i]) else if i == n then Ask(p) else Ask(Without(order, p)[i - n - 1])
  {
  }

  /** In a family of deals every party tells and asks every party. */
  lemma DealMovesAll(order: seq<PartyId>, p: PartyId, q: PartyId)
    requires p in order && q in order
    ensures Tell(q) in DealMoves(order, p) && Ask(q) in DealMoves(order, p)
  {
    var moves := DealMoves(order, p);
    assert moves[IndexOf(order, q)] == Tell(q);
    if q == p {
      assert moves[|order|] == Ask(q);
    } else {
      var others := Without(order, p);
      assert moves[|order| + 1 + IndexOf(others, q)] == Ask(q);
    }
  }

  lemma DealMovesDistinct(order: seq<PartyId>, p: PartyId)
    requires Distinct(order)
    ensures Distinct(DealMoves(order, p))
  {
    hide DealMoves;
    WithoutCount(order, p);
    var moves, n := DealMoves(order, p), |order|;
    forall i, j | 0 <= i < j < |moves| ensures moves[i] != moves[j] {
      DealMoveAt(order, p, i);
      DealMoveAt(order, p, j);
      if j > n { assert Without(order, p)[j - n - 1] in Without(order, p); }
    }
  }

  lemma DealSensible(parties: seq<PartyId>, pl: Plan, d: Deals)
    requires ValidPlan(parties, pl)
    ensures Sensible(parties, DealPhase(pl, d))
  {
    hide DealMoves, Valid;
    var f := DealPhase(pl, d);
    forall p | p in parties ensures Distinct(f.moves(p)) { DealMovesDistinct(pl.net.order, p); }
    forall p, q | p in parties && Tell(q) in f.moves(p) ensures q in parties && Ask(p) in f.moves(q) {
      DealTo(pl.net.order, p, q);
      DealMovesAll(pl.net.order, q, p);
    }
    forall p, q | p in parties && Ask(q) in f.moves(p) ensures q in parties && Tell(p) in f.moves(q) {
      DealTo(pl.net.order, p, q);
      DealMovesAll(pl.net.order, q, p);
    }
    forall p, q, i, j | Meets(parties, f, p, i, q, j) ensures f.rank(q, j) < f.rank(p, i) {
      DealMoveAt(pl.net.order, p, i);
      DealMoveAt(pl.net.order, q, j);
    }
  }

  lemma DealTo(order: seq<PartyId>, p: PartyId, q: PartyId)
    requires p in order && (Tell(q) in DealMoves(order, p) || Ask(q) in DealMoves(order, p))
    ensures q in order
  {
    var moves := DealMoves(order, p);
    var i :| 0 <= i < |moves| && (moves[i] == Tell(q) || moves[i] == Ask(q));
    DealMoveAt(order, p, i);
    if i > |order| { assert Without(order, p)[i - |order| - 1] in Without(order, p); }
  }

  // The script.

  ghost function PhaseAt(pl: Plan, n: nat): Phase
    requires Valid(pl.session) && n < 6
  {
    var s := pl.session;
    if n < 4 then DealPhase(pl, FamilyOf(s, n))
    else KingPhase(pl.net, AllMasks(s, n), OpenedValues(s, n))
  }

  /** The number of values opened in phase `n`. */
  function Count(s: Session, n: nat): nat { if n == 4 then s.count else 2 * s.count }

  /** What the parties contribute to the opening in phase `n`. */
  ghost function AllMasks(s: Session, n: nat): (r: seq<seq<Share>>)
    requires Valid(s)
    ensures |r| == |s.points| && forall k :: 0 <= k < |r| ==> |r[k]| == Count(s, n)
  {
    if n == 4 then AllTripleMasks(s) else AllOperandMasks(s)
  }

  ghost function OpenedValues(s: Session, n: nat): (r: seq<int>)
    requires Valid(s)
    ensures |r| == Count(s, n)
  {
    if n == 4 then Secrets(s.p, MaskPolys(s), s.count) else Secrets(s.p, OperandPolys(s), 2 * s.count)
  }

  ghost function Phases(pl: Plan): (r: seq<Phase>)
    requires Valid(pl.session)
    ensures |r| == 6 && forall n :: 0 <= n < 6 ==> r[n] == PhaseAt(pl, n)
  {
    seq(6, n requires 0 <= n < 6 => PhaseAt(pl, n))
  }

  lemma MovesOf(pl: Plan, n: nat, p: PartyId)
    requires Valid(pl.session) && n < 6
    ensures PhaseAt(pl, n).moves(p) == MovesAt(pl, n, p)
  {
  }

  lemma {:induction false} Lengths(pl: Plan, n: nat, p: PartyId)
    requires Valid(pl.session) && n <= 6 && Distinct(pl.net.order) && p in pl.net.order
    ensures |Transcript(Phases(pl), n, p)| == StartOf(pl, n, p)
  {
    hide Valid, PhaseAt, Results, DealMoves, KingMoves, DealLength, Distinct, Without;
    if n > 0 {
      Lengths(pl, n - 1, p);
      MovesOf(pl, n - 1, p);
      Sizes(pl, p);
    }
  }

  /** The state of knowledge of `p` in phase `n`, before move `i`, or after the last one of it. */
  ghost predicate Knows(pl: Plan, p: PartyId, h: seq<Res>, n: nat, i: nat) {
    && Valid(pl.session) && Distinct(pl.net.order) && p in pl.net.order && pl.net.king in pl.net.order
      && |pl.session.points| == |pl.net.order|
    && n < 6 && i <= |PhaseAt(pl, n).moves(p)| && h == Until(Phases(pl), n, i, p)
  }

  /** The results of a phase that is past, and those so far of the current one. */
  lemma Known(pl: Plan, p: PartyId, h: seq<Res>, n: nat, i: nat, f: nat, j: nat)
    requires Knows(pl, p, h, n, i) && f <= n && j < |MovesAt(pl, f, p)| && (f == n ==> j < i)
    ensures StartOf(pl, f, p) + j < |h|
    ensures h[StartOf(pl, f, p) + j] == ResultOf(PhaseAt(pl, f), p, MovesAt(pl, f, p)[j])
  {
    hide Valid, PhaseAt, DealMoves, KingMoves, StartOf, MovesAt, Transcript, ResultOf, Distinct;
    var phases := Phases(pl);
    MovesOf(pl, f, p);
    Lengths(pl, f, p);
    if f < n {
      UntilEnds(phases, f, p);
      TranscriptPrefix(phases, f + 1, n, p);
      assert Transcript(phases, f + 1, p)[StartOf(pl, f, p) + j] == Results(phases[f], p)[j];
    }
  }

  lemma Position(pl: Plan, p: PartyId, h: seq<Res>, n: nat, i: nat)
    requires Knows(pl, p, h, n, i)
    ensures |h| == StartOf(pl, n, p) + i && i <= |MovesAt(pl, n, p)|
    ensures i < |MovesAt(pl, n, p)| ==> PhaseOf(pl, p, |h|) == n
  {
    hide Valid, PhaseAt, DealMoves, KingMoves, DealLength, Transcript, ResultOf, Distinct;
    MovesOf(pl, n, p);
    Lengths(pl, n, p);
    Sizes(pl, p);
  }

  lemma DealtSizes(pl: Plan, f: nat)
    requires Valid(pl.session) && f < 4
    ensures var d := FamilyOf(pl.session, f);
      |d.dealt| == |pl.session.points| && forall k :: 0 <= k < |d.dealt| ==> |d.dealt[k]| == |pl.session.points|
  {
    hide Shared;
  }

  /** A share that `q` dealt arrives as it was dealt. */
  lemma ShareArrives(pl: Plan, f: nat, q: PartyId, p: PartyId)
    requires Valid(pl.session) && f < 4 && q in pl.net.order && p in pl.net.order
      && |pl.session.points| == |pl.net.order|
    ensures var d := FamilyOf(pl.session, f);
      && |d.dealt| == |pl.net.order| && (forall k :: 0 <= k < |d.dealt| ==> |d.dealt[k]| == |pl.net.order|)
      && HoldsShares(DealPacket(pl, d, q, p), 1) && ShareIn(Got(q, DealPacket(pl, d, q, p))) == DealtBy(pl, d, q, p)
  {
    hide Valid, Items, HoldsShares, ReadShares;
    DealtSizes(pl, f);
    ReadsBack(pl.net, [DealtBy(pl, FamilyOf(pl.session, f), q, p)]);
  }

  /** After a family of deals `p` holds what it was dealt, in party order. */
  lemma ReceivedDeals(pl: Plan, p: PartyId, h: seq<Res>, n: nat, i: nat, f: nat)
    requires Knows(pl, p, h, n, i) && f < 4 && f < n
    ensures StartOf(pl, f, p) + DealLength(pl) <= |h| && |Without(pl.net.order, p)| < |pl.net.order|
    ensures |FamilyOf(pl.session, f).dealt| == |pl.net.order|
    ensures Received(pl, p, h, StartOf(pl, f, p)) == FamilyOf(pl.session, f).dealt[IndexOf(pl.net.order, p)]
  {
    hide Valid, DealMoves, KingMoves, Transcript, Until, Knows, ShareIn, DealPacket, StartOf;
    KnowsFacts(pl, p, h, n, i);
    DealtSizes(pl, f);
    Sizes(pl, p);
    var d, k, base := FamilyOf(pl.session, f), IndexOf(pl.net.order, p), StartOf(pl, f, p);
    Known(pl, p, h, n, i, f, DealLength(pl) - 1);
    forall j | 0 <= j < |pl.net.order| ensures Received(pl, p, h, base)[j] == d.dealt[k][j] {
      DealReceived(pl, p, h, n, i, f, j);
    }
    assert |d.dealt[k]| == |pl.net.order|;
  }

  lemma KnowsFacts(pl: Plan, p: PartyId, h: seq<Res>, n: nat, i: nat)
    requires Knows(pl, p, h, n, i)
    ensures Valid(pl.session) && Distinct(pl.net.order) && p in pl.net.order && pl.net.king in pl.net.order
      && |pl.session.points| == |pl.net.order| && n < 6
  {
  }

  /** The call, counted within a family of deals, in which `p` takes the share of the j-th party. */
  function TakenAt(pl: Plan, p: PartyId, j: nat): nat
    requires p in pl.net.order && j < |pl.net.order|
  {
    if pl.net.order[j] == p then |pl.net.order|
      else |pl.net.order| + 1 + IndexOf(Without(pl.net.order, p), pl.net.order[j])
  }

  lemma ReceivedAt(pl: Plan, p: PartyId, h: seq<Res>, base: nat, j: nat)
    requires base + DealLength(pl) <= |h| && p in pl.net.order && |Without(pl.net.order, p)| < |pl.net.order|
      && j < |pl.net.order|
    ensures base + TakenAt(pl, p, j) < |h| && Received(pl, p, h, base)[j] == ShareIn(h[base + TakenAt(pl, p, j)])
    ensures TakenAt(pl, p, j) < |DealMoves(pl.net.order, p)|
      && DealMoves(pl.net.order, p)[TakenAt(pl, p, j)] == Ask(pl.net.order[j])
  {
    DealMoveAt(pl.net.order, p, TakenAt(pl, p, j));
  }

  lemma DealReceived(pl: Plan, p: PartyId, h: seq<Res>, n: nat, i: nat, f: nat, j: nat)
    requires Knows(pl, p, h, n, i) && f < 4 && f < n && j < |pl.net.order|
    requires StartOf(pl, f, p) + DealLength(pl) <= |h| && |Without(pl.net.order, p)| < |pl.net.order|
    requires var d := FamilyOf(pl.session, f); |d.dealt| == |pl.net.order| && forall k :: 0 <= k < |d.dealt| ==>
      |d.dealt[k]| == |pl.net.order|
    ensures Received(pl, p, h, StartOf(pl, f, p))[j] == FamilyOf(pl.session, f).dealt[IndexOf(pl.net.order, p)][j]
  {
    hide Valid, DealMoves, KingMoves, Transcript, Until, Knows, ShareIn, DealPacket, StartOf, Received, TakenAt,
      DealLength, FamilyOf, Without;
    KnowsFacts(pl, p, h, n, i);
    ReceivedAt(pl, p, h, StartOf(pl, f, p), j);
    Known(pl, p, h, n, i, f, TakenAt(pl, p, j));
    ShareArrives(pl, f, pl.net.order[j], p);
    IndexOfAt(pl.net.order, j);
  }

  lemma NowReady(pl: Plan, p: PartyId, h: seq<Res>, n: nat, i: nat)
    requires Knows(pl, p, h, n, i) && n >= 4
    ensures Ready(pl, p, h)
  {
    hide Valid, DealMoves, KingMoves, Transcript, Until, Knows, DealLength;
    KnowsFacts(pl, p, h, n, i);
    Sizes(pl, p);
    Sizes(pl, pl.net.king);
    Position(pl, p, h, n, i);
  }

  /** After the deals `p` computes the random shares that are its due. */
  lemma RandomIs(pl: Plan, p: PartyId, h: seq<Res>, n: nat, i: nat, f: nat, l: nat)
    requires Knows(pl, p, h, n, i) && n >= 4 && f < 4 && Ready(pl, p, h) && l < pl.session.count
    requires var d, k := FamilyOf(pl.session, f), IndexOf(pl.net.order, p);
      |d.dealt| == |pl.net.order|
      && |d.dealt[k]| == |pl.net.order|
    ensures RandomOf(pl, p, h, f, l) == RandomShare(pl.session, FamilyOf(pl.session, f), IndexOf(pl.net.order, p), l)
  {
    hide Knows, StartOf, Received, RowShares, ExtractionRows, FamilyOf, DealLength, Without;
    ReceivedDeals(pl, p, h, n, i, f);
  }

  lemma TripleMasksAre(pl: Plan, p: PartyId, h: seq<Res>, n: nat, i: nat)
    requires Knows(pl, p, h, n, i) && n >= 4 && Ready(pl, p, h)
    ensures Valid(pl.session) && IndexOf(pl.net.order, p) < |pl.session.points|
    ensures MyTripleMasks(pl, p, h) == TripleMasks(pl.session, IndexOf(pl.net.order, p))
    ensures forall l :: 0 <= l < pl.session.count ==>
      MyDouble(pl, p, h, l) == Double(pl.session, IndexOf(pl.net.order, p), l)
    ensures forall l :: 0 <= l < pl.session.count ==>
      RandomOf(pl, p, h, 0, l) == Triple(pl.session, IndexOf(pl.net.order, p), l).a
    ensures forall l :: 0 <= l < pl.session.count ==>
      RandomOf(pl, p, h, 1, l) == Triple(pl.session, IndexOf(pl.net.order, p), l).b
  {
    hide Knows, StartOf, RandomOf, RandomShare, MaskProduct, Valid, Unmask, OpenedMask;
    KnowsFacts(pl, p, h, n, i);
    forall l | 0 <= l < pl.session.count
      ensures RandomOf(pl, p, h, 0, l) == Triple(pl.session, IndexOf(pl.net.order, p), l).a
      ensures RandomOf(pl, p, h, 1, l) == Triple(pl.session, IndexOf(pl.net.order, p), l).b
      ensures MyDouble(pl, p, h, l) == Double(pl.session, IndexOf(pl.net.order, p), l)
      ensures MyTripleMasks(pl, p, h)[l] == TripleMasks(pl.session, IndexOf(pl.net.order, p))[l]
    {
      DealtSizes(pl, 0);
      DealtSizes(pl, 1);
      DealtSizes(pl, 2);
      DealtSizes(pl, 3);
      RandomIs(pl, p, h, n, i, 0, l);
      RandomIs(pl, p, h, n, i, 1, l);
      RandomIs(pl, p, h, n, i, 2, l);
      RandomIs(pl, p, h, n, i, 3, l);
    }
  }

  lemma OperandMasksAre(pl: Plan, p: PartyId, h: seq<Res>, n: nat, i: nat)
    requires Knows(pl, p, h, n, i) && n >= 4 && Ready(pl, p, h)
    ensures Valid(pl.session) && IndexOf(pl.net.order, p) < |pl.session.points|
    ensures MyOperandMasks(pl, p, h) == OperandMasks(pl.session, IndexOf(pl.net.order, p))
  {
    hide Knows, StartOf, RandomOf, Valid, SubShare, Triple, MyTripleMasks, TripleMasks, MyDouble, Double;
    KnowsFacts(pl, p, h, n, i);
    TripleMasksAre(pl, p, h, n, i);
    var s, k := pl.session, IndexOf(pl.net.order, p);
    forall j | 0 <= j < 2 * s.count ensures MyOperandMasks(pl, p, h)[j] == OperandMasks(s, k)[j] {
      assert RandomOf(pl, p, h, 0, j / 2) == Triple(s, k, j / 2).a
        && RandomOf(pl, p, h, 1, j / 2) == Triple(s, k, j / 2).b;
    }
  }

  ghost function Mine(pl: Plan, n: nat, p: PartyId, h: seq<Res>): (r: seq<Share>)
    requires Ready(pl, p, h)
    ensures |r| == Count(pl.session, n)
  {
    if n == 4 then MyTripleMasks(pl, p, h) else MyOperandMasks(pl, p, h)
  }

  lemma MineIs(pl: Plan, p: PartyId, h: seq<Res>, n: nat, i: nat, f: nat)
    requires Knows(pl, p, h, n, i) && n >= 4 && Ready(pl, p, h)
    ensures Valid(pl.session) && IndexOf(pl.net.order, p) < |pl.session.points|
    ensures Mine(pl, f, p, h) == AllMasks(pl.session, f)[IndexOf(pl.net.order, p)]
  {
    hide Knows, Ready, MyTripleMasks, MyOperandMasks, TripleMasks, OperandMasks, Valid;
    TripleMasksAre(pl, p, h, n, i);
    OperandMasksAre(pl, p, h, n, i);
  }

  /** The king has collected what the others sent it. */
  lemma KingHeard(pl: Plan, h: seq<Res>, n: nat, i: nat, f: nat)
    requires Knows(pl, pl.net.king, h, n, i) && 4 <= f <= n && Ready(pl, pl.net.king, h)
    requires f == n ==> |Without(pl.net.order, pl.net.king)| <= i
    ensures Valid(pl.session)
    ensures Collected(pl.net, AllMasks(pl.session, f), OpenedValues(pl.session, f), h, StartOf(pl, f, pl.net.king))
  {
    hide Knows, Ready, Valid, AllMasks, OpenedValues, KingPacket, KingMoves, StartOf, Without;
    KnowsFacts(pl, pl.net.king, h, n, i);
    KingPosition(pl, h, n, i, f);
    var others := Without(pl.net.order, pl.net.king);
    var s, base := pl.session, StartOf(pl, f, pl.net.king);
    forall j | 0 <= j < |others|
      ensures h[base + j] == Got(others[j],
        KingPacket(pl.net, AllMasks(s, f), OpenedValues(s, f), others[j], pl.net.king))
    {
      KingMovesCount(pl.net.order, pl.net.king, pl.net.king);
      KingMoveAt(pl.net.order, pl.net.king, pl.net.king, j);
      Known(pl, pl.net.king, h, n, i, f, j);
    }
  }

  /** The king, once it has collected, holds everybody's masked shares. */
  lemma KingHolds(pl: Plan, h: seq<Res>, n: nat, i: nat, f: nat)
    requires Knows(pl, pl.net.king, h, n, i) && 4 <= f <= n && Ready(pl, pl.net.king, h)
    requires f == n ==> |Without(pl.net.order, pl.net.king)| <= i
    ensures StartOf(pl, f, pl.net.king) + |Without(pl.net.order, pl.net.king)| <= |h| && Valid(pl.session)
    ensures AtKing(pl.net, h, StartOf(pl, f, pl.net.king), Mine(pl, f, pl.net.king, h)) == AllMasks(pl.session, f)
  {
    hide Knows, Ready, Valid, Mine, AllMasks, OpenedValues, StartOf, AtKing, Count, KingPacket;
    KnowsFacts(pl, pl.net.king, h, n, i);
    KingHeard(pl, h, n, i, f);
    MineIs(pl, pl.net.king, h, n, i, f);
    KingCollects(pl.net, AllMasks(pl.session, f), OpenedValues(pl.session, f), h, StartOf(pl, f, pl.net.king),
      Count(pl.session, f));
  }

  lemma KingPosition(pl: Plan, h: seq<Res>, n: nat, i: nat, f: nat)
    requires Knows(pl, pl.net.king, h, n, i) && 4 <= f <= n
    requires f == n ==> |Without(pl.net.order, pl.net.king)| <= i
    ensures StartOf(pl, f, pl.net.king) + |Without(pl.net.order, pl.net.king)| <= |h|
  {
    hide Valid, DealMoves, KingMoves, Transcript, Until, Knows, DealLength, Without;
    KnowsFacts(pl, pl.net.king, h, n, i);
    Sizes(pl, pl.net.king);
    Position(pl, pl.net.king, h, n, i);
  }

  /** So the king opens the right values. */
  lemma KingOpensValues(pl: Plan, h: seq<Res>, n: nat, i: nat, f: nat)
    requires Knows(pl, pl.net.king, h, n, i) && 4 <= f <= n && f < 6 && Ready(pl, pl.net.king, h)
    requires f == n ==> |Without(pl.net.order, pl.net.king)| <= i
    ensures StartOf(pl, f, pl.net.king) + |Without(pl.net.order, pl.net.king)| <= |h| && Valid(pl.session)
    ensures OpenedByKing(pl.session.p, pl.session.points, pl.net, h, StartOf(pl, f, pl.net.king),
      Mine(pl, f, pl.net.king, h)) == Ok(OpenedValues(pl.session, f))
  {
    hide Knows, Ready, Mine, StartOf, AtKing, OpenAll, TripleMasks, OperandMasks, MaskPolys, OperandPolys, Without,
      Shared;
    KingHolds(pl, h, n, i, f);
    TripleOpening(pl.session);
    OperandOpening(pl.session);
  }

  /** What a party sends is the packet of the phase. */
  lemma ContentIs(pl: Plan, p: PartyId, h: seq<Res>, n: nat, i: nat, to: PartyId)
    requires Knows(pl, p, h, n, i) && i < |MovesAt(pl, n, p)| && MovesAt(pl, n, p)[i] == Tell(to) && to in pl.net.order
    ensures Valid(pl.session) && (n >= 4 ==>
      Ready(pl, p, h)
      && (p == pl.net.king ==> StartOf(pl, n, p) + |Without(pl.net.order, pl.net.king)| <= |h|))
    ensures Content(pl, n, p, h, to) == Some(PhaseAt(pl, n).packet(p, to))
  {
    hide Knows, Ready, Valid, AllMasks, OpenedValues, KingMoves, DealMoves, StartOf, AtKing, Count, Without,
      MyTripleMasks, MyOperandMasks, OpenedByKing, Items, FamilyOf;
    KnowsFacts(pl, p, h, n, i);
    if n < 4 {
      DealtSizes(pl, n);
    } else {
      NowReady(pl, p, h, n, i);
      KingMoveAt(pl.net.order, pl.net.king, p, i);
      MineIs(pl, p, h, n, i, n);
      if p == pl.net.king {
        KingOthers(pl.net, i);
        KingOpensValues(pl, h, n, i, n);
      }
    }
  }

  /** The call that gave a result, by its number. */
  lemma CallOfResult(pl: Plan, p: PartyId, h: seq<Res>, n: nat, i: nat, m: nat)
    requires Knows(pl, p, h, n, i) && m < |h|
    ensures var f := PhaseOf(pl, p, m);
      f <= n && StartOf(pl, f, p) <= m < StartOf(pl, f, p) + |MovesAt(pl, f, p)|
        && (f == n ==> m - StartOf(pl, f, p) < i)
  {
    hide Valid, DealMoves, KingMoves, Transcript, Until, Knows, DealLength, Without;
    KnowsFacts(pl, p, h, n, i);
    Sizes(pl, p);
    Position(pl, p, h, n, i);
    PhaseCalls(pl, p, m);
  }

  lemma ResultIsLegible(pl: Plan, p: PartyId, h: seq<Res>, n: nat, i: nat, m: nat)
    requires Knows(pl, p, h, n, i) && m < |h| && h[m].Got?
    ensures Legible(pl, p, m, h[m].packet)
  {
    hide Knows, Valid, AllMasks, OpenedValues, KingMoves, DealMoves, StartOf, PhaseOf, Without, HoldsShares, FamilyOf,
      Items, DealPacket;
    KnowsFacts(pl, p, h, n, i);
    CallOfResult(pl, p, h, n, i, m);
    var f := PhaseOf(pl, p, m);
    var j := m - StartOf(pl, f, p);
    Known(pl, p, h, n, i, f, j);
    var q := MovesAt(pl, f, p)[j].from;
    AskedParty(pl, f, p, j);
    if f < 4 {
      ShareArrives(pl, f, q, p);
    } else if p == pl.net.king {
      MasksArrive(pl.net, AllMasks(pl.session, f), OpenedValues(pl.session, f), q);
    }
  }

  lemma AskedParty(pl: Plan, n: nat, p: PartyId, i: nat)
    requires p in pl.net.order && pl.net.king in pl.net.order && i < |MovesAt(pl, n, p)|
    ensures var move := MovesAt(pl, n, p)[i]; (if move.Ask? then move.from else move.to) in pl.net.order
  {
    hide KingMoves, DealMoves;
    var move := MovesAt(pl, n, p)[i];
    if n < 4 {
      DealTo(pl.net.order, p, if move.Ask? then move.from else move.to);
    } else {
      KingMovesWith(pl.net.order, pl.net.king, p, if move.Ask? then move.from else move.to);
    }
  }

  /** A party that has got what the phases prescribe calls what they prescribe. */
  lemma CallIs(pl: Plan, p: PartyId, h: seq<Res>, n: nat, i: nat)
    requires Knows(pl, p, h, n, i) && i < |PhaseAt(pl, n).moves(p)|
    ensures Valid(pl.session) && |pl.session.points| == |pl.net.order| && Distinct(pl.net.order) && p in pl.net.order
      && pl.net.king in pl.net.order
    ensures Call(pl, p, h) == CallOf(PhaseAt(pl, n), p, PhaseAt(pl, n).moves(p)[i])
  {
    hide Knows, Valid, KingMoves, DealMoves, StartOf, PhaseOf, Without, Content, PhaseAt, MovesAt, Legible;
    KnowsFacts(pl, p, h, n, i);
    Position(pl, p, h, n, i);
    MovesOf(pl, n, p);
    forall m | 0 <= m < |h| && h[m].Got? ensures Legible(pl, p, m, h[m].packet) {
      ResultIsLegible(pl, p, h, n, i, m);
    }
    AskedParty(pl, n, p, i);
    var move := MovesAt(pl, n, p)[i];
    if move.Tell? {
      ContentIs(pl, p, h, n, i, move.to);
    }
  }

  lemma CallEnds(pl: Plan, p: PartyId)
    requires Valid(pl.session) && |pl.session.points| == |pl.net.order| && Distinct(pl.net.order)
      && p in pl.net.order && pl.net.king in pl.net.order
    ensures Call(pl, p, Transcript(Phases(pl), 6, p)) == Finish
  {
    hide Valid, Transcript, DealMoves, KingMoves, Without, Distinct, DealLength, Content;
    Lengths(pl, 6, p);
  }

  lemma PlanFacts(cfg: Config, pl: Plan)
    requires Multiplies(cfg, pl)
    ensures ValidConfig(cfg) && Valid(pl.session) && |pl.session.points| == |pl.net.order| && Distinct(pl.net.order)
      && pl.net.king in pl.net.order
    ensures forall p :: p in cfg.parties <==> p in pl.net.order
  {
    hide Valid;
  }

  lemma CallIsDirect(cfg: Config, pl: Plan)
    requires Multiplies(cfg, pl)
    ensures OnlyDirect(cfg)
  {
    hide Valid, Content, MovesAt, PhaseOf, StartOf, AllLegible, Without;
  }

  /** The multiplication protocol follows its phases. */
  lemma MultiplicationFollows(cfg: Config, pl: Plan)
    requires Multiplies(cfg, pl)
    ensures Valid(pl.session) && Follows(cfg, Phases(pl))
  {
    hide Valid, Call, PhaseAt, Transcript, Until, Sensible, OnlyDirect, Distinct;
    PlanFacts(cfg, pl);
    CallIsDirect(cfg, pl);
    var phases := Phases(pl);
    forall n | 0 <= n < |phases| ensures Sensible(cfg.parties, phases[n]) {
      PhaseSensible(cfg, pl, n);
    }
    forall p, n, i | p in cfg.parties && 0 <= n < |phases| && 0 <= i < |phases[n].moves(p)|
      ensures cfg.prog(p, Until(phases, n, i, p)) == CallOf(phases[n], p, phases[n].moves(p)[i])
    {
      assert Knows(pl, p, Until(phases, n, i, p), n, i);
      CallIs(pl, p, Until(phases, n, i, p), n, i);
    }
    forall p | p in cfg.parties ensures cfg.prog(p, Transcript(phases, |phases|, p)) == Finish {
      CallEnds(pl, p);
    }
  }

  lemma PhaseSensible(cfg: Config, pl: Plan, n: nat)
    requires Multiplies(cfg, pl) && n < 6
    ensures Valid(pl.session) && Sensible(cfg.parties, PhaseAt(pl, n))
  {
    hide Valid, Sensible, Call;
    PlanFacts(cfg, pl);
    if n < 4 {
      DealSensible(cfg.parties, pl, FamilyOf(pl.session, n));
    } else {
      KingSensible(cfg.parties, pl.net, AllMasks(pl.session, n), OpenedValues(pl.session, n));
    }
  }

  // The result.

  /** The opened values, as any party has them in the end. */
  lemma OpenedByAll(pl: Plan, p: PartyId, h: seq<Res>, f: nat)
    requires Valid(pl.session) && Knows(pl, p, h, 5, |PhaseAt(pl, 5).moves(p)|) && 4 <= f <= 5 && Ready(pl, p, h)
    ensures StartOf(pl, f, p) + |KingMoves(pl.net.order, pl.net.king, p)| <= |h|
    ensures OpenedAt(pl.session.p, pl.session.points, pl.net, p, h, StartOf(pl, f, p), Mine(pl, f, p, h))
      == Ok(OpenedValues(pl.session, f))
  {
    hide Knows, Ready, Valid, AllMasks, OpenedValues, KingMoves, DealMoves, Without, OpenedByKing, Mine, DealLength,
      OpenAll, Count;
    var n := |PhaseAt(pl, 5).moves(p)|;
    KnowsFacts(pl, p, h, 5, n);
    MovesOf(pl, 5, p);
    Position(pl, p, h, 5, n);
    Sizes(pl, p);
    if p == pl.net.king {
      KingOpensValues(pl, h, 5, n, f);
    } else {
      KingMoveAt(pl.net.order, pl.net.king, p, 1);
      Known(pl, p, h, 5, n, f, 1);
      var values := OpenedValues(pl.session, f);
      assert values[..|values|] == values;
    }
  }

  lemma EndKnows(pl: Plan, p: PartyId, h: seq<Res>)
    requires Valid(pl.session) && |pl.session.points| == |pl.net.order| && Distinct(pl.net.order)
      && p in pl.net.order && pl.net.king in pl.net.order
    requires h == Transcript(Phases(pl), 6, p)
    ensures Knows(pl, p, h, 5, |PhaseAt(pl, 5).moves(p)|) && Ready(pl, p, h) && StartOf(pl, 6, p) <= |h|
  {
    hide Valid, PhaseAt, Transcript, Until, DealMoves, KingMoves, DealLength, Distinct, Without;
    UntilEnds(Phases(pl), 5, p);
    Lengths(pl, 6, p);
    Sizes(pl, p);
  }

  /** Given the opened values, a party computes its shares of the products. */
  lemma ProductsFromIs(pl: Plan, p: PartyId, h: seq<Res>, n: nat, i: nat)
    requires Valid(pl.session) && Knows(pl, p, h, n, i) && n >= 4 && Ready(pl, p, h)
    ensures ProductsFrom(pl, p, h, OpenedValues(pl.session, 4), OpenedValues(pl.session, 5))
      == Products(pl.session, IndexOf(pl.net.order, p))
  {
    hide Knows, Ready, Valid, RandomOf, MyDouble, Double, RandomShare, Product, Unmask, MaskPolys, OperandPolys,
      MyTripleMasks, TripleMasks;
    KnowsFacts(pl, p, h, n, i);
    TripleMasksAre(pl, p, h, n, i);
    var s, k := pl.session, IndexOf(pl.net.order, p);
    forall l | 0 <= l < s.count
      ensures ProductsFrom(pl, p, h, OpenedValues(s, 4), OpenedValues(s, 5))[l] == Products(s, k)[l]
    {
      assert MyTriple(pl, p, h, OpenedMask(s, l), l) == Triple(s, k, l);
    }
  }

  /** What a party computes from the results of its calls are its shares of the products. */
  lemma OutputsAre(pl: Plan, p: PartyId, h: seq<Res>)
    requires Valid(pl.session) && |pl.session.points| == |pl.net.order| && Distinct(pl.net.order)
      && p in pl.net.order && pl.net.king in pl.net.order
    requires h == Transcript(Phases(pl), 6, p)
    ensures Ready(pl, p, h) && StartOf(pl, 6, p) <= |h|
    ensures Outputs(pl, p, h) == Ok(Products(pl.session, IndexOf(pl.net.order, p)))
  {
    hide Knows, Ready, Valid, KingMoves, DealMoves, Without, OpenedAt, MyTripleMasks, MyOperandMasks, StartOf,
      ProductsFrom, Products,
      OpenedValues, PhaseAt, Transcript;
    EndKnows(pl, p, h);
    var n := |PhaseAt(pl, 5).moves(p)|;
    OpenedByAll(pl, p, h, 4);
    OpenedByAll(pl, p, h, 5);
    ProductsFromIs(pl, p, h, 5, n);
  }

  /** The calls of `p` are made. */
  ghost predicate Through(pl: Plan, p: PartyId, k: Sim) {
    p in k.hist && Ready(pl, p, HistOf(k, p)) && StartOf(pl, 6, p) <= |HistOf(k, p)|
  }

  /** The outputs of all parties in a state of the simulation, in party order. */
  ghost function AllOutputs(pl: Plan, k: Sim): seq<Result<seq<Share>, OpenError>>
    requires forall i :: 0 <= i < |pl.net.order| ==> Through(pl, pl.net.order[i], k)
  {
    seq(|pl.net.order|, i requires 0 <= i < |pl.net.order| && Through(pl, pl.net.order[i], k) =>
      Outputs(pl, pl.net.order[i], HistOf(k, pl.net.order[i])))
  }

  /**
   * Multiplication over the network is correct. In every run that has ended, under any delays and any
   * order of the party list, every party has finished, and what the parties have computed from what
   * they received are shares of degree t, on one polynomial for each product, of the products of the
   * operands.
   */
  lemma MultiplicationOverTheNetwork(cfg: Config, pl: Plan, m: nat)
    requires Multiplies(cfg, pl) && ValidConfig(cfg) && Halted(cfg, Run(cfg, m))
    ensures AllFinished(cfg, Run(cfg, m)) && Valid(pl.session)
    ensures forall i :: 0 <= i < |pl.net.order| ==> Through(pl, pl.net.order[i], Run(cfg, m))
    ensures var s, outputs := pl.session, AllOutputs(pl, Run(cfg, m));
      && |outputs| == |s.points| && (forall k :: 0 <= k < |outputs| ==> outputs[k] == Ok(AllProducts(s)[k]))
      && Shared(s.p, s.t, s.points, ProductPolys(s), AllProducts(s))
      && forall l :: 0 <= l < s.count ==>
        Eq(s.p, Polynomials.Eval(ProductPolys(s)[l], 0), Polynomials.Eval(s.x[l], 0) * Polynomials.Eval(s.y[l], 0))
  {
    hide Run, Wf, Halted, Valid, Ready, StartOf, Outputs, Multiplies, Follows, Products, ProductPolys, Shared, Eq,
      Transcript;
    PlanFacts(cfg, pl);
    MultiplicationFollows(cfg, pl);
    forall p | p in cfg.parties
      ensures p in Run(cfg, m).finished && p in Run(cfg, m).hist
        && HistOf(Run(cfg, m), p) == Transcript(Phases(pl), 6, p)
    {
      ScriptIsRun(cfg, Phases(pl), m, p);
    }
    forall i | 0 <= i < |pl.net.order|
      ensures var h := Run(cfg, m).hist;
        Through(pl, pl.net.order[i], Run(cfg, m))
          && Outputs(pl, pl.net.order[i], h[pl.net.order[i]]) == Ok(AllProducts(pl.session)[i])
    {
      OutputsAre(pl, pl.net.order[i], HistOf(Run(cfg, m), pl.net.order[i]));
      IndexOfAt(pl.net.order, i);
    }
    MultiplicationIsCorrect(pl.session);
  }

  /** Every session can be run, under every delay function. */
  lemma EverySessionRuns(parties: seq<PartyId>, pl: Plan, delay: (Link, nat) -> Time) returns (cfg: Config)
    requires Distinct(parties) && ValidPlan(parties, pl)
    ensures Multiplies(cfg, pl) && cfg.parties == parties && cfg.delay == delay
  {
    hide Valid, Call;
    cfg := Config(parties, (p: PartyId, h: seq<Res>) => if p in pl.net.order then Call(pl, p, h) else Finish, delay);
  }

  /** And every run ends. */
  lemma MultiplicationEnds(cfg: Config, pl: Plan)
    requires Multiplies(cfg, pl) && ValidConfig(cfg)
    ensures exists m: nat :: Halted(cfg, Run(cfg, m)) && AllFinished(cfg, Run(cfg, m))
  {
    hide Run, Wf, Halted, Valid, Multiplies, AllFinished;
    CallsAreBounded(cfg, pl);
    var m := HaltsFrom(cfg, 12 * |pl.net.order|, 0);
    MultiplicationOverTheNetwork(cfg, pl, m);
  }

  lemma CallsAreBounded(cfg: Config, pl: Plan)
    requires Multiplies(cfg, pl)
    ensures Bounded(cfg, 12 * |pl.net.order|)
  {
    hide Valid, Content, MovesAt, DealMoves, KingMoves, Without, AllLegible, Distinct;
    PlanFacts(cfg, pl);
    forall p | p in pl.net.order ensures StartOf(pl, 6, p) <= 12 * |pl.net.order| {
      Sizes(pl, p);
    }
  }
}
