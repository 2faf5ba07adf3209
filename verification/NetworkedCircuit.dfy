/**
 * Circuits evaluated over the simulated network: every layer is one opening to the king. The protocol,
 * and what every run of it comes to.
 */
module NetworkedCircuit {
  import opened Wrappers
  import opened SimTypes
  import opened Kernel
  import opened Sequences
  import opened Termination
  import opened DelayIndependence
  import opened Scripts
  import opened KingRounds
  import opened Zp
  import Polynomials
  import opened Shamir
  import opened KingOpening
  import opened Triples
  import opened Circuits

  /** A circuit to be evaluated over a network. A party uses of it what is public and its own shares. */
  datatype Plan = Plan(task: Task, net: Net)

  ghost predicate ValidPlan(parties: seq<PartyId>, pl: Plan) {
    Valid(pl.task) && ValidNet(parties, pl.net) && pl.task.points == EncodeAll(pl.task.p, pl.net.order)
  }

  /** What the parties know of a plan. */
  ghost predicate Known(pl: Plan, who: PartyId) {
    && Valid(pl.task) && Distinct(pl.net.order) && |pl.task.points| == |pl.net.order|
    && who in pl.net.order && pl.net.king in pl.net.order
  }

  function Layers(pl: Plan): nat { |pl.task.circuit.layers| }

  /** The number of calls in one layer. */
  function Length(pl: Plan, who: PartyId): nat { |KingMoves(pl.net.order, pl.net.king, who)| }

  /** Where the calls of layer `n` start. */
  function StartOf(pl: Plan, n: nat, who: PartyId): nat {
    if n == 0 then 0 else StartOf(pl, n - 1, who) + Length(pl, who)
  }

  /** The layer, of those from `n` on, to which call `m` belongs. */
  function LayerOf(pl: Plan, who: PartyId, m: nat, n: nat): (r: nat)
    requires n <= Layers(pl)
    ensures n <= r <= Layers(pl)
    decreases Layers(pl) - n
  {
    if n == Layers(pl) || m < StartOf(pl, n + 1, who) then n else LayerOf(pl, who, m, n + 1)
  }

  lemma {:induction false} LayerCalls(pl: Plan, who: PartyId, m: nat, n: nat)
    requires n <= Layers(pl) && StartOf(pl, n, who) <= m
    ensures var r := LayerOf(pl, who, m, n);
      StartOf(pl, r, who) <= m && (r < Layers(pl) ==> m < StartOf(pl, r, who) + Length(pl, who))
    decreases Layers(pl) - n
  {
    hide Length;
    if !(n == Layers(pl) || m < StartOf(pl, n + 1, who)) { LayerCalls(pl, who, m, n + 1); }
  }

  function Gates(pl: Plan, n: nat): nat
    requires n < Layers(pl)
  {
    |pl.task.circuit.layers[n]|
  }

  /** What `who` contributes to the opening of layer `n`, from its shares on the wires. */
  ghost function MyMasks(pl: Plan, who: PartyId, n: nat, wires: seq<Share>): (r: seq<Share>)
    requires Known(pl, who) && n < Layers(pl) && |wires| == Wires(pl.task.circuit, n)
    ensures |r| == 2 * Gates(pl, n)
  {
    TripleFacts(pl.task, IndexOf(pl.net.order, who), n);
    LayerFits(pl.task, n);
    LayerMasks(pl.task.p, pl.task.circuit.layers[n], wires, pl.task.tripleShares[IndexOf(pl.net.order, who)][n])
  }

  /** The shares of `who` on the wires before layer `n`, computed from the results of its calls. */
  ghost function MyWires(pl: Plan, who: PartyId, h: seq<Res>, n: nat): (r: Option<seq<Share>>)
    requires Known(pl, who) && n <= Layers(pl) && StartOf(pl, n, who) <= |h|
    ensures r.Some? ==> |r.value| == Wires(pl.task.circuit, n)
  {
    var s, k := pl.task, IndexOf(pl.net.order, who);
    if n == 0 then
      InputsShared(s, k);
      Some(s.inputShares[k])
    else match MyWires(pl, who, h, n - 1)
      case None => None
      case Some(wires) =>
        TripleFacts(s, k, n - 1);
        match OpenedAt(s.p, s.points, pl.net, who, h, StartOf(pl, n - 1, who), MyMasks(pl, who, n - 1, wires))
        case Err(_) => None
        case Ok(values) =>
          if |values| == 2 * Gates(pl, n - 1) then Some(wires + LayerProducts(s.p, s.tripleShares[k][n - 1], values))
            else None
  }

  /** The packet that call `m` returned can be read. */
  predicate Legible(pl: Plan, who: PartyId, m: nat, packet: Packet) {
    var n := LayerOf(pl, who, m, 0);
    n < Layers(pl) ==>
      if who == pl.net.king then HoldsShares(packet, 2 * Gates(pl, n)) else 2 * Gates(pl, n) <= |packet.items|
  }

  predicate AllLegible(pl: Plan, who: PartyId, h: seq<Res>) {
    forall m :: 0 <= m < |h| && h[m].Got? ==> Legible(pl, who, m, h[m].packet)
  }

  /** What `who` sends in layer `n`; nothing if an opening has failed. */
  ghost function Content(pl: Plan, who: PartyId, h: seq<Res>, n: nat): Option<Packet>
    requires Known(pl, who) && n < Layers(pl) && StartOf(pl, n, who) <= |h|
  {
    match MyWires(pl, who, h, n)
    case None => None
    case Some(wires) =>
      var mine := MyMasks(pl, who, n, wires);
      if who != pl.net.king then Some(Encode(pl.net, Items(mine)))
      else if |h| < StartOf(pl, n, who) + |Without(pl.net.order, pl.net.king)| then None
      else match OpenedByKing(pl.task.p, pl.task.points, pl.net, h, StartOf(pl, n, who), mine)
        case Ok(values) => Some(Encode(pl.net, values))
        case Err(_) => None
  }

  /** The next network call of `who`. A packet that cannot be read, or a failed opening, ends its run. */
  ghost function Call(pl: Plan, who: PartyId, h: seq<Res>): Op
    requires Known(pl, who)
  {
    LayerCalls(pl, who, |h|, 0);
    var n := LayerOf(pl, who, |h|, 0);
    if n == Layers(pl) || !AllLegible(pl, who, h) then Finish
    else match KingMoves(pl.net.order, pl.net.king, who)[|h| - StartOf(pl, n, who)]
      case Ask(q) => RecvFrom(q)
      case Tell(to) =>
        match Content(pl, who, h, n)
        case Some(packet) => Op.Send(to, packet)
        case None => Finish
  }

  /** The simulation evaluates the circuit, under whatever delays. */
  ghost predicate Evaluates(cfg: Config, pl: Plan) {
    && ValidConfig(cfg) && ValidPlan(cfg.parties, pl)
    && forall p, h :: cfg.prog(p, h) == if p in pl.net.order && Known(pl, p) then Call(pl, p, h) else Finish
  }

  // The script.

  ghost function LayerPhase(pl: Plan, n: nat): Phase
    requires Valid(pl.task) && n < Layers(pl)
  {
    KingPhase(pl.net, AllMasksAt(pl.task, n), Opened(pl.task, n))
  }

  ghost function Phases(pl: Plan): (r: seq<Phase>)
    requires Valid(pl.task)
    ensures |r| == Layers(pl) && forall n :: 0 <= n < |r| ==> r[n] == LayerPhase(pl, n)
  {
    seq(Layers(pl), n requires 0 <= n < Layers(pl) => LayerPhase(pl, n))
  }

  lemma MovesOf(pl: Plan, n: nat, who: PartyId)
    requires Valid(pl.task) && n < Layers(pl)
    ensures LayerPhase(pl, n).moves(who) == KingMoves(pl.net.order, pl.net.king, who)
  {
  }

  lemma {:induction false} Lengths(pl: Plan, n: nat, who: PartyId)
    requires Valid(pl.task) && n <= Layers(pl)
    ensures |Transcript(Phases(pl), n, who)| == StartOf(pl, n, who)
  {
    hide Valid, LayerPhase, Results, KingMoves;
    if n > 0 {
      Lengths(pl, n - 1, who);
      MovesOf(pl, n - 1, who);
    }
  }

  /** The first `n` layers are behind. */
  ghost predicate Past(pl: Plan, who: PartyId, h: seq<Res>, n: nat) {
    Known(pl, who) && n <= Layers(pl) && Transcript(Phases(pl), n, who) <= h
  }

  /** And so are the first `i` calls of the next one. */
  ghost predicate Within(pl: Plan, who: PartyId, h: seq<Res>, n: nat, i: nat) {
    Known(pl, who) && n < Layers(pl) && i <= |LayerPhase(pl, n).moves(who)| && h == Until(Phases(pl), n, i, who)
  }

  lemma PastBefore(pl: Plan, who: PartyId, h: seq<Res>, n: nat, m: nat)
    requires Past(pl, who, h, n) && m <= n
    ensures Past(pl, who, h, m) && StartOf(pl, m, who) <= StartOf(pl, n, who) <= |h|
  {
    hide Valid, Transcript;
    TranscriptPrefix(Phases(pl), m, n, who);
    Lengths(pl, n, who);
    Lengths(pl, m, who);
  }

  /** The results of a layer that is behind. */
  lemma ResultAt(pl: Plan, who: PartyId, h: seq<Res>, n: nat, j: nat)
    requires Past(pl, who, h, n + 1) && j < Length(pl, who)
    ensures StartOf(pl, n, who) + j < |h|
    ensures h[StartOf(pl, n, who) + j] == ResultOf(LayerPhase(pl, n), who, KingMoves(pl.net.order, pl.net.king, who)[j])
  {
    hide Valid, LayerPhase, KingMoves, ResultOf;
    MovesOf(pl, n, who);
    Lengths(pl, n, who);
    Lengths(pl, n + 1, who);
    var r := Results(Phases(pl)[n], who);
    assert Transcript(Phases(pl), n + 1, who)[StartOf(pl, n, who) + j] == r[j];
  }

  /** The results of the current layer. */
  lemma ResultWithin(pl: Plan, who: PartyId, h: seq<Res>, n: nat, i: nat, j: nat)
    requires Within(pl, who, h, n, i) && j < i
    ensures Past(pl, who, h, n) && |h| == StartOf(pl, n, who) + i && i <= Length(pl, who)
    ensures h[StartOf(pl, n, who) + j] == ResultOf(LayerPhase(pl, n), who, KingMoves(pl.net.order, pl.net.king, who)[j])
  {
    hide Valid, LayerPhase, KingMoves, ResultOf, Transcript;
    Position(pl, who, h, n, i);
    MovesOf(pl, n, who);
  }

  lemma Position(pl: Plan, who: PartyId, h: seq<Res>, n: nat, i: nat)
    requires Within(pl, who, h, n, i)
    ensures Past(pl, who, h, n) && |h| == StartOf(pl, n, who) + i && i <= Length(pl, who)
  {
    hide Valid, LayerPhase, KingMoves, ResultOf, Transcript;
    MovesOf(pl, n, who);
    Lengths(pl, n, who);
  }

  /** What the king asked for in a layer it has received. */
  lemma KingHas(pl: Plan, h: seq<Res>, n: nat)
    requires Known(pl, pl.net.king) && n < Layers(pl)
    requires Past(pl, pl.net.king, h, n + 1)
      || exists i :: Within(pl, pl.net.king, h, n, i) && |Without(pl.net.order, pl.net.king)| <= i
    ensures Collected(pl.net, AllMasksAt(pl.task, n), Opened(pl.task, n), h, StartOf(pl, n, pl.net.king))
  {
    hide Valid, KingMoves, AllMasksAt, Opened, KingPacket, Without, Past, Within;
    var king, others := pl.net.king, Without(pl.net.order, pl.net.king);
    var base := StartOf(pl, n, king);
    KingMovesCount(pl.net.order, king, king);
    forall j | 0 <= j < |others|
      ensures base + j < |h| && h[base + j]
        == Got(others[j], KingPacket(pl.net, AllMasksAt(pl.task, n), Opened(pl.task, n), others[j], king))
    {
      KingMoveAt(pl.net.order, king, king, j);
      if Past(pl, king, h, n + 1) {
        ResultAt(pl, king, h, n, j);
      } else {
        var i :| Within(pl, king, h, n, i) && |others| <= i;
        ResultWithin(pl, king, h, n, i, j);
      }
    }
    if Past(pl, king, h, n + 1) {
      PastBefore(pl, king, h, n + 1, n + 1);
    } else {
      var i :| Within(pl, king, h, n, i) && |others| <= i;
      Position(pl, king, h, n, i);
    }
  }

  // What the parties compute.

  lemma NextStart(pl: Plan, n: nat, who: PartyId)
    ensures StartOf(pl, n + 1, who) == StartOf(pl, n, who) + Length(pl, who)
  {
  }

  lemma PhaseGives(pl: Plan, who: PartyId, n: nat)
    requires Valid(pl.task) && n < Layers(pl)
    ensures ResultOf(LayerPhase(pl, n), who, Ask(pl.net.king)) ==
      Got(pl.net.king, KingPacket(pl.net, AllMasksAt(pl.task, n), Opened(pl.task, n), pl.net.king, who))
  {
    hide Valid, KingPacket;
  }

  /** A layer that is behind has given every party what the opening needs. */
  lemma Heard(pl: Plan, who: PartyId, h: seq<Res>, n: nat)
    requires Past(pl, who, h, n + 1)
    ensures StartOf(pl, n, who) + Length(pl, who) <= |h| && Valid(pl.task) && n < Layers(pl)
    ensures var masks, values, base := AllMasksAt(pl.task, n), Opened(pl.task, n), StartOf(pl, n, who);
      if who == pl.net.king then Collected(pl.net, masks, values, h, base)
      else base + 1 < |h| && h[base + 1] == Got(pl.net.king, KingPacket(pl.net, masks, values, pl.net.king, who))
  {
    hide Valid, AllMasksAt, Opened, Without, Past, StartOf, KingMoves, Collected, KingPacket, LayerPhase, Known;
    PastFacts(pl, who, h, n + 1);
    PastBefore(pl, who, h, n + 1, n + 1);
    NextStart(pl, n, who);
    KingMovesCount(pl.net.order, pl.net.king, who);
    if who == pl.net.king {
      KingHas(pl, h, n);
    } else {
      KingMoveAt(pl.net.order, pl.net.king, who, 1);
      ResultAt(pl, who, h, n, 1);
      PhaseGives(pl, who, n);
    }
  }

  /** Every layer that is behind has been opened, with the right values. */
  lemma OpenedRightly(pl: Plan, who: PartyId, h: seq<Res>, n: nat)
    requires Past(pl, who, h, n + 1)
    ensures StartOf(pl, n, who) + Length(pl, who) <= |h| && Valid(pl.task)
      && IndexOf(pl.net.order, who) < |pl.task.points|
    ensures pl.task.p > 0 && Prime(pl.task.p) && n < Layers(pl)
    ensures OpenedAt(pl.task.p, pl.task.points, pl.net, who, h, StartOf(pl, n, who),
      AllMasksAt(pl.task, n)[IndexOf(pl.net.order, who)])
      == Ok(Opened(pl.task, n))
  {
    hide Valid, AllMasksAt, Opened, OpenAll, Without, OpenedAt, Past, StartOf, KingMoves, Collected, KingPacket,
      IndexOf, Known;
    PastFacts(pl, who, h, n + 1);
    Heard(pl, who, h, n);
    LayerOpens(pl.task, n);
    LayerFits(pl.task, n);
    AllOpen(pl.task.p, pl.task.points, pl.net, AllMasksAt(pl.task, n), Opened(pl.task, n), who, h, StartOf(pl, n, who));
  }

  lemma PastFacts(pl: Plan, who: PartyId, h: seq<Res>, n: nat)
    requires Past(pl, who, h, n)
    ensures Known(pl, who) && n <= Layers(pl) && Valid(pl.task)
    ensures Distinct(pl.net.order) && |pl.task.points| == |pl.net.order| && who in pl.net.order
      && pl.net.king in pl.net.order
    ensures IndexOf(pl.net.order, who) < |pl.task.points|
  {
    hide Valid, Transcript;
  }

  /** So a party has the right shares on all wires of the layers that are behind. */
  lemma {:induction false} WiresAre(pl: Plan, who: PartyId, h: seq<Res>, n: nat)
    requires Past(pl, who, h, n)
    ensures Known(pl, who) && n <= Layers(pl) && StartOf(pl, n, who) <= |h|
      && IndexOf(pl.net.order, who) < |pl.task.points|
    ensures MyWires(pl, who, h, n) == Some(SharesAtLayer(pl.task, IndexOf(pl.net.order, who), n))
  {
    hide Valid, Opened, OpenedAt, Past, LayerProducts, Length;
    PastFacts(pl, who, h, n);
    PastBefore(pl, who, h, n, n);
    var k := IndexOf(pl.net.order, who);
    if n == 0 {
    } else {
      PastBefore(pl, who, h, n, n - 1);
      WiresAre(pl, who, h, n - 1);
      OpenedRightly(pl, who, h, n - 1);
      NextLayer(pl.task, k, n - 1);
    }
  }

  // The calls are those of the script.

  /** The layer of a call, from where the calls of the layers start. */
  lemma {:induction false} LayerIs(pl: Plan, who: PartyId, m: nat, n: nat, from: nat)
    requires from <= n < Layers(pl) && StartOf(pl, n, who) <= m < StartOf(pl, n, who) + Length(pl, who)
    ensures LayerOf(pl, who, m, from) == n
    decreases n - from
  {
    hide Length;
    if from < n {
      StartsGrow(pl, from + 1, n, who);
      LayerIs(pl, who, m, n, from + 1);
    }
  }

  lemma {:induction false} StartsGrow(pl: Plan, m: nat, n: nat, who: PartyId)
    requires m <= n
    ensures StartOf(pl, m, who) <= StartOf(pl, n, who)
    decreases n
  {
    hide Length;
    if m < n { StartsGrow(pl, m, n - 1, who); }
  }

  /** The call that gave a result: of a layer behind, or of the current one. */
  lemma CallOfResult(pl: Plan, who: PartyId, h: seq<Res>, n: nat, i: nat, m: nat)
    requires Within(pl, who, h, n, i) && m < |h|
    ensures var f := LayerOf(pl, who, m, 0);
      && f <= n && StartOf(pl, f, who) <= m < StartOf(pl, f, who) + Length(pl, who)
      && h[m] == ResultOf(LayerPhase(pl, f), who, KingMoves(pl.net.order, pl.net.king, who)[m - StartOf(pl, f, who)])
  {
    hide Valid, LayerPhase, KingMoves, ResultOf, Transcript, LayerOf;
    Position(pl, who, h, n, i);
    LayerCalls(pl, who, m, 0);
    var f := LayerOf(pl, who, m, 0);
    if StartOf(pl, n, who) <= m {
      LayerIs(pl, who, m, n, 0);
      ResultWithin(pl, who, h, n, i, m - StartOf(pl, n, who));
    } else {
      if f >= n { StartsGrow(pl, n, f, who); }
      PastBefore(pl, who, h, n, f + 1);
      ResultAt(pl, who, h, f, m - StartOf(pl, f, who));
    }
  }

  lemma ResultIsLegible(pl: Plan, who: PartyId, h: seq<Res>, n: nat, i: nat, m: nat)
    requires Within(pl, who, h, n, i) && m < |h| && h[m].Got?
    ensures Legible(pl, who, m, h[m].packet)
  {
    hide Valid, KingMoves, Transcript, StartOf, LayerOf, Length, AllMasksAt, Opened, HoldsShares, Items, Within,
      Without;
    WithinFacts(pl, who, h, n, i);
    CallOfResult(pl, who, h, n, i, m);
    var f := LayerOf(pl, who, m, 0);
    var j := m - StartOf(pl, f, who);
    LengthIs(pl, who);
    KingMoveAt(pl.net.order, pl.net.king, who, j);
    var q := KingMoves(pl.net.order, pl.net.king, who)[j].from;
    if who == pl.net.king {
      MasksArrive(pl.net, AllMasksAt(pl.task, f), Opened(pl.task, f), q);
    }
  }

  lemma LengthIs(pl: Plan, who: PartyId)
    ensures Length(pl, who) == |KingMoves(pl.net.order, pl.net.king, who)|
  {
  }

  lemma WithinFacts(pl: Plan, who: PartyId, h: seq<Res>, n: nat, i: nat)
    requires Within(pl, who, h, n, i)
    ensures Known(pl, who) && n < Layers(pl) && Valid(pl.task)
    ensures Distinct(pl.net.order) && |pl.task.points| == |pl.net.order| && who in pl.net.order
      && pl.net.king in pl.net.order
    ensures IndexOf(pl.net.order, who) < |pl.task.points|
  {
    hide Valid, Transcript;
  }

  /** What a party sends is the packet of the phase. */
  lemma ContentIs(pl: Plan, who: PartyId, h: seq<Res>, n: nat, i: nat, to: PartyId)
    requires Within(pl, who, h, n, i) && i < Length(pl, who) && KingMoves(pl.net.order, pl.net.king, who)[i] == Tell(to)
    ensures Known(pl, who) && n < Layers(pl) && StartOf(pl, n, who) <= |h|
    ensures Content(pl, who, h, n) == Some(LayerPhase(pl, n).packet(who, to))
  {
    hide Valid, KingMoves, Transcript, StartOf, Opened, Items, Within, Without, MyWires, AtKing, OpenAll, Collected;
    WithinFacts(pl, who, h, n, i);
    Position(pl, who, h, n, i);
    WiresAre(pl, who, h, n);
    LengthIs(pl, who);
    KingMoveAt(pl.net.order, pl.net.king, who, i);
    if who == pl.net.king {
      KingTellsLate(pl.net, i);
      KingHas(pl, h, n);
      KingOpens(pl, h, n);
      KingOthers(pl.net, i);
    }
  }

  /** The king, once it has collected, opens the right values. */
  lemma KingOpens(pl: Plan, h: seq<Res>, n: nat)
    requires Known(pl, pl.net.king) && n < Layers(pl)
    requires Collected(pl.net, AllMasksAt(pl.task, n), Opened(pl.task, n), h, StartOf(pl, n, pl.net.king))
    ensures StartOf(pl, n, pl.net.king) + |Without(pl.net.order, pl.net.king)| <= |h|
    ensures IndexOf(pl.net.order, pl.net.king) < |pl.task.points| && Prime(pl.task.p)
    ensures OpenedByKing(pl.task.p, pl.task.points, pl.net, h, StartOf(pl, n, pl.net.king),
      AllMasksAt(pl.task, n)[IndexOf(pl.net.order, pl.net.king)]) == Ok(Opened(pl.task, n))
  {
    LayerFits(pl.task, n);
    LayerOpens(pl.task, n);
    hide Valid, AllMasksAt, Opened, OpenAll, AtKing, StartOf, KingPacket;
    KingCollects(pl.net, AllMasksAt(pl.task, n), Opened(pl.task, n), h, StartOf(pl, n, pl.net.king), 2 * Gates(pl, n));
  }

  /** A party that has got what the phases prescribe calls what they prescribe. */
  lemma CallIs(pl: Plan, who: PartyId, h: seq<Res>, n: nat, i: nat)
    requires Within(pl, who, h, n, i) && i < |LayerPhase(pl, n).moves(who)|
    ensures Known(pl, who) && Call(pl, who, h) == CallOf(LayerPhase(pl, n), who, LayerPhase(pl, n).moves(who)[i])
  {
    hide Valid, KingMoves, Transcript, LayerOf, Length, Within, Content, Legible, LayerPhase;
    WithinFacts(pl, who, h, n, i);
    Position(pl, who, h, n, i);
    MovesOf(pl, n, who);
    LengthIs(pl, who);
    LayerIs(pl, who, |h|, n, 0);
    forall m | 0 <= m < |h| && h[m].Got? ensures Legible(pl, who, m, h[m].packet) {
      ResultIsLegible(pl, who, h, n, i, m);
    }
    var move := KingMoves(pl.net.order, pl.net.king, who)[i];
    if move.Tell? { ContentIs(pl, who, h, n, i, move.to); }
  }

  lemma CallEnds(pl: Plan, who: PartyId)
    requires Known(pl, who)
    ensures Call(pl, who, Transcript(Phases(pl), Layers(pl), who)) == Finish
  {
    hide Valid, KingMoves, Transcript, Content, AllLegible, LayerOf;
    Lengths(pl, Layers(pl), who);
    var m := StartOf(pl, Layers(pl), who);
    LayerCalls(pl, who, m, 0);
    var f := LayerOf(pl, who, m, 0);
    if f < Layers(pl) {
      StartsGrow(pl, f + 1, Layers(pl), who);
    }
  }

  lemma PlanFacts(cfg: Config, pl: Plan)
    requires Evaluates(cfg, pl)
    ensures ValidConfig(cfg) && Valid(pl.task) && ValidNet(cfg.parties, pl.net)
    ensures forall p :: p in cfg.parties ==> Known(pl, p)
    ensures forall p, h :: p in cfg.parties ==> cfg.prog(p, h) == Call(pl, p, h)
  {
    hide Valid, Call;
  }

  lemma CallIsDirect(cfg: Config, pl: Plan)
    requires Evaluates(cfg, pl)
    ensures OnlyDirect(cfg)
  {
    hide Valid, Content, LayerOf, AllLegible, Without;
  }

  /** The evaluation follows its phases. */
  lemma EvaluationFollows(cfg: Config, pl: Plan)
    requires Evaluates(cfg, pl)
    ensures Valid(pl.task) && Follows(cfg, Phases(pl))
  {
    hide Valid, Call, LayerPhase, Transcript, Until, Sensible, OnlyDirect, Evaluates;
    PlanFacts(cfg, pl);
    CallIsDirect(cfg, pl);
    var phases := Phases(pl);
    forall n | 0 <= n < |phases| ensures Sensible(cfg.parties, phases[n]) {
      LayerSensible(cfg.parties, pl, n);
    }
    forall p, n, i | p in cfg.parties && 0 <= n < |phases| && 0 <= i < |phases[n].moves(p)|
      ensures cfg.prog(p, Until(phases, n, i, p)) == CallOf(phases[n], p, phases[n].moves(p)[i])
    {
      assert Within(pl, p, Until(phases, n, i, p), n, i);
      CallIs(pl, p, Until(phases, n, i, p), n, i);
    }
    forall p | p in cfg.parties ensures cfg.prog(p, Transcript(phases, |phases|, p)) == Finish {
      CallEnds(pl, p);
    }
  }

  lemma LayerSensible(parties: seq<PartyId>, pl: Plan, n: nat)
    requires Valid(pl.task) && ValidNet(parties, pl.net) && n < Layers(pl)
    ensures Sensible(parties, LayerPhase(pl, n))
  {
    hide Valid, Sensible;
    KingSensible(parties, pl.net, AllMasksAt(pl.task, n), Opened(pl.task, n));
  }

  // The result.

  /** What `who` has in the end: its shares on all wires, if no opening failed. */
  ghost function Outputs(pl: Plan, who: PartyId, k: Sim): Option<seq<Share>> {
    if Known(pl, who) && who in k.hist && StartOf(pl, Layers(pl), who) <= |HistOf(k, who)|
    then MyWires(pl, who, HistOf(k, who), Layers(pl)) else None
  }

  /** The shares that the parties compute on all wires, in party order. */
  ghost function AllWires(pl: Plan): (r: seq<seq<Share>>)
    requires Valid(pl.task)
    ensures |r| == |pl.task.points|
  {
    seq(|pl.task.points|, k requires 0 <= k < |pl.task.points| => SharesAtLayer(pl.task, k, Layers(pl)))
  }

  lemma EndOutputs(pl: Plan, who: PartyId, k: Sim)
    requires Known(pl, who) && who in k.hist && HistOf(k, who) == Transcript(Phases(pl), Layers(pl), who)
    ensures IndexOf(pl.net.order, who) < |pl.task.points|
    ensures Outputs(pl, who, k) == Some(AllWires(pl)[IndexOf(pl.net.order, who)])
  {
    hide Valid, Transcript, MyWires, SharesAtLayer, StartOf;
    assert Past(pl, who, HistOf(k, who), Layers(pl));
    PastFacts(pl, who, HistOf(k, who), Layers(pl));
    WiresAre(pl, who, HistOf(k, who), Layers(pl));
  }

  /**
   * Circuits over the network. For every circuit, of any number of layers, and every degree below the
   * number of parties: in every run that has ended, under any delays and any order of the party list,
   * every party has finished, and what the parties have computed from what they received are shares of
   * degree t, on one polynomial for each wire, of the values that the circuit gives its wires.
   */
  lemma CircuitOverTheNetwork(cfg: Config, pl: Plan, m: nat)
    requires Evaluates(cfg, pl) && ValidConfig(cfg) && Halted(cfg, Run(cfg, m))
    ensures AllFinished(cfg, Run(cfg, m)) && Valid(pl.task) && |pl.net.order| == |pl.task.points|
    ensures forall k :: 0 <= k < |pl.net.order| ==> Outputs(pl, pl.net.order[k], Run(cfg, m)) == Some(AllWires(pl)[k])
    ensures var s := pl.task; forall k :: 0 <= k < |s.points| ==>
      OnWires(s.p, s.t, s.points[k], Polys(s, Layers(pl)), AllWires(pl)[k])
    ensures WellFormed(pl.task.circuit) && |pl.task.inputs| == pl.task.circuit.inputs
    ensures var s := pl.task; Carry(s.p, Polys(s, Layers(pl)), Circuits.Values(s.circuit, InputValues(s), Layers(pl)))
  {
    hide Run, Wf, Halted, Valid, Evaluates, Follows, Transcript, Outputs, Carry, OnWires, SharesAtLayer, WellFormed,
      Known;
    PlanFacts(cfg, pl);
    EvaluationFollows(cfg, pl);
    forall p | p in cfg.parties
      ensures p in Run(cfg, m).finished && p in Run(cfg, m).hist
        && HistOf(Run(cfg, m), p) == Transcript(Phases(pl), Layers(pl), p)
    {
      ScriptIsRun(cfg, Phases(pl), m, p);
    }
    SizesAgree(cfg, pl);
    forall k | 0 <= k < |pl.net.order| ensures Outputs(pl, pl.net.order[k], Run(cfg, m)) == Some(AllWires(pl)[k]) {
      IndexOfAt(pl.net.order, k);
      EndOutputs(pl, pl.net.order[k], Run(cfg, m));
    }
    forall k | 0 <= k < |pl.task.points|
      ensures OnWires(pl.task.p, pl.task.t, pl.task.points[k], Polys(pl.task, Layers(pl)), AllWires(pl)[k])
    {
      WiresShared(pl.task, k, Layers(pl));
    }
    WiresAreRight(pl.task, Layers(pl));
  }

  lemma SizesAgree(cfg: Config, pl: Plan)
    requires Evaluates(cfg, pl)
    ensures |pl.net.order| == |pl.task.points| && pl.task.p > 0
  {
  }

  /** Every circuit can be run, under every delay function. */
  lemma EveryCircuitRuns(parties: seq<PartyId>, pl: Plan, delay: (Link, nat) -> Time) returns (cfg: Config)
    requires Distinct(parties) && ValidPlan(parties, pl)
    ensures Evaluates(cfg, pl) && cfg.parties == parties && cfg.delay == delay
  {
    hide Valid, Call;
    cfg := Config(parties, (p: PartyId, h: seq<Res>) =>
      if p in pl.net.order && Known(pl, p) then Call(pl, p, h) else Finish, delay);
  }

  lemma {:induction false} CallsSoFar(pl: Plan, n: nat, who: PartyId)
    requires Distinct(pl.net.order) && who in pl.net.order
    ensures StartOf(pl, n, who) <= n * (2 * |pl.net.order|)
  {
    hide KingMoves;
    if n > 0 {
      CallsSoFar(pl, n - 1, who);
      WithoutCount(pl.net.order, who);
      KingMovesCount(pl.net.order, pl.net.king, who);
      assert n * (2 * |pl.net.order|) == (n - 1) * (2 * |pl.net.order|) + 2 * |pl.net.order|;
    }
  }

  lemma CallsAreBounded(cfg: Config, pl: Plan)
    requires Evaluates(cfg, pl)
    ensures Bounded(cfg, Layers(pl) * (2 * |pl.net.order|))
  {
    hide Valid, Content, AllLegible, LayerOf;
    forall p, h | |h| >= Layers(pl) * (2 * |pl.net.order|) ensures cfg.prog(p, h).Finish? {
      if p in pl.net.order && Known(pl, p) {
        CallsSoFar(pl, Layers(pl), p);
        LayerCalls(pl, p, |h|, 0);
        var f := LayerOf(pl, p, |h|, 0);
        if f < Layers(pl) {
          StartsGrow(pl, f + 1, Layers(pl), p);
        }
      }
    }
  }

  /** And every run ends. */
  lemma CircuitEnds(cfg: Config, pl: Plan)
    requires Evaluates(cfg, pl) && ValidConfig(cfg)
    ensures exists m: nat :: Halted(cfg, Run(cfg, m)) && AllFinished(cfg, Run(cfg, m))
  {
    hide Run, Wf, Halted, Valid, Evaluates, AllFinished, OnWires, Carry, Outputs;
    CallsAreBounded(cfg, pl);
    var m := HaltsFrom(cfg, Layers(pl) * (2 * |pl.net.order|), 0);
    CircuitOverTheNetwork(cfg, pl, m);
  }
}
