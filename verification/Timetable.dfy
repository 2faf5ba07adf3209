/**
 * Openings that follow one another without pause: the protocol, and the timetable by which its
 * rounds would run if no party ever took a packet of another round.
 */
module Timetable {
  import opened Wrappers
  import opened SimTypes
  import opened Kernel
  import opened Sequences

  /**
   * The share that a party reveals in an opening, and the bytes it takes on the wire, depend on all that
   * the calls of the party returned in the openings before.
   */
  datatype Opens = Opens(rounds: nat, share: (PartyId, seq<Res>) -> seq<int>, size: (PartyId, seq<Res>) -> nat)

  /** Openings as they come out in a run: the share of `p` takes `size(p, j)` bytes in the j-th one. */
  datatype Course = Course(opens: Opens, size: (PartyId, nat) -> nat)

  /** Where a party is: its round, the shares sent and the shares collected in that round. */
  datatype Pos = Pos(round: nat, sent: nat, got: nat)

  /** The position after `n` calls of a party that has `others` peers. */
  function At(others: nat, n: nat): (r: Pos)
    ensures r.sent <= others && (r.got > 0 ==> r.sent == others) && (others > 0 ==> r.got < others)
    ensures r.sent + r.got <= n
  {
    if n == 0 then Pos(0, 0, 0)
    else
      var before := At(others, n - 1);
      if before.sent < others then before.(sent := before.sent + 1)
      else if before.got + 1 < others then before.(got := before.got + 1)
      else Pos(before.round + 1, 0, 0)
  }

  /** How many peers a party has. */
  function Peers(cfg: Config): (r: nat)
    ensures |cfg.parties| > 1 ==> r > 0
  {
    if cfg.parties == [] then 0 else |cfg.parties| - 1
  }

  /** What a party with the results `h` reveals in its current round. */
  function Reveals(o: Opens, others: nat, p: PartyId, h: seq<Res>): Packet {
    var pos := At(others, |h|);
    var before := h[..|h| - pos.sent - pos.got];
    Packet(o.share(p, before), o.size(p, before))
  }

  /** The next network call of a party that runs `rounds` openings in a row. */
  function Call(parties: seq<PartyId>, o: Opens, p: PartyId, h: seq<Res>): Op {
    var others := Without(parties, p);
    if others == [] then Finish
    else
      var pos := At(|others|, |h|);
      if pos.round >= o.rounds then Finish
      else if pos.sent < |others| then Send(others[pos.sent], Reveals(o, |others|, p, h))
      else RecvAny
  }

  ghost predicate Plays(cfg: Config, o: Opens) {
    && ValidConfig(cfg) && |cfg.parties| > 1
    && forall p, h :: cfg.prog(p, h) == Call(cfg.parties, o, p, h)
  }

  /** With the results `h` the next share of `p` has the size that the course says. */
  ghost predicate SizeFits(cfg: Config, o: Course, p: PartyId, h: seq<Res>) {
    var pos := At(Peers(cfg), |h|);
    pos.round < o.opens.rounds ==> Reveals(o.opens, Peers(cfg), p, h).size == o.size(p, pos.round)
  }

  /** The parties run these openings, and the run takes this course. */
  ghost predicate Opening(cfg: Config, o: Course) {
    && Plays(cfg, o.opens)
    && forall n: nat, p :: p in cfg.parties ==> SizeFits(cfg, o, p, HistOf(Run(cfg, n), p))
  }

  /** When `p` starts round `j`: as soon as it holds everybody's share of the round before. */
  function Begin(cfg: Config, o: Course, p: PartyId, j: nat): Time
    decreases j, 0, 0
  {
    if j == 0 then 0 else Latest(cfg, o, p, j - 1, Without(cfg.parties, p))
  }

  /** When the last of the round-`j` shares of `senders` reaches `p`. */
  function Latest(cfg: Config, o: Course, p: PartyId, j: nat, senders: seq<PartyId>): Time
    decreases j, 2, |senders|
  {
    if senders == [] then Begin(cfg, o, p, j)
    else Max(Arrive(cfg, o, senders[0], p, j), Latest(cfg, o, p, j, senders[1..]))
  }

  /** When the round-`j` share of `q` reaches `p`. */
  function Arrive(cfg: Config, o: Course, q: PartyId, p: PartyId, j: nat): Time
    decreases j, 1, 0
  {
    var arrival := Begin(cfg, o, q, j) + cfg.delay(Link(q, p), o.size(q, j));
    if j == 0 then arrival else Max(arrival, Arrive(cfg, o, q, p, j - 1))
  }

  /** By the timetable no share of a round reaches a party before all shares of the round before. */
  ghost predicate OnTime(cfg: Config, o: Course) {
    forall j, p, q, r | p in cfg.parties && q in cfg.parties && r in cfg.parties ::
      0 < j < o.opens.rounds && p != r && q != r && p != q ==> Arrive(cfg, o, q, r, j - 1) <= Arrive(cfg, o, p, r, j)
  }

  lemma {:induction false} LatestCovers(cfg: Config, o: Course, p: PartyId, j: nat, senders: seq<PartyId>, q: PartyId)
    ensures Begin(cfg, o, p, j) <= Latest(cfg, o, p, j, senders)
    ensures q in senders ==> Arrive(cfg, o, q, p, j) <= Latest(cfg, o, p, j, senders)
  {
    if senders != [] { LatestCovers(cfg, o, p, j, senders[1..], q); }
  }

  lemma {:induction false} LatestReached(cfg: Config, o: Course, p: PartyId, j: nat, senders: seq<PartyId>, t: Time)
    requires Begin(cfg, o, p, j) <= t && forall q :: q in senders ==> Arrive(cfg, o, q, p, j) <= t
    ensures Latest(cfg, o, p, j, senders) <= t
  {
    if senders != [] { LatestReached(cfg, o, p, j, senders[1..], t); }
  }

  /** A party starts the next round when the last share of this one has arrived, and not before. */
  lemma StartsWhenComplete(cfg: Config, o: Course, p: PartyId, j: nat, t: Time)
    requires Begin(cfg, o, p, j) <= t && forall q :: q in cfg.parties && q != p ==> Arrive(cfg, o, q, p, j) <= t
    requires t == Begin(cfg, o, p, j) || exists q :: q in cfg.parties && q != p && t == Arrive(cfg, o, q, p, j)
    ensures t == Begin(cfg, o, p, j + 1)
  {
    var others := Without(cfg.parties, p);
    LatestReached(cfg, o, p, j, others, t);
    LatestCovers(cfg, o, p, j, others, p);
    if t != Begin(cfg, o, p, j) {
      var q :| q in cfg.parties && q != p && t == Arrive(cfg, o, q, p, j);
      LatestCovers(cfg, o, p, j, others, q);
    }
  }

  lemma StartsInOrder(cfg: Config, o: Course, p: PartyId, j: nat, q: PartyId)
    ensures Begin(cfg, o, p, j) <= Begin(cfg, o, p, j + 1)
    ensures q in cfg.parties && q != p ==> Arrive(cfg, o, q, p, j) <= Begin(cfg, o, p, j + 1)
  {
    LatestCovers(cfg, o, p, j, Without(cfg.parties, p), q);
  }

  /** The delay of a link is the same for every packet. */
  ghost predicate FixedDelay(cfg: Config, d: Link -> Time) {
    forall l, size :: cfg.delay(l, size) == d(l)
  }

  ghost predicate TriangleInequality(parties: seq<PartyId>, d: Link -> Time) {
    forall p, q, r | p in parties && q in parties && r in parties ::
      p != q && q != r && p != r ==> d(Link(q, r)) <= d(Link(q, p)) + d(Link(p, r))
  }

  lemma {:induction false} FixedArrival(cfg: Config, o: Course, d: Link -> Time, q: PartyId, p: PartyId, j: nat)
    requires FixedDelay(cfg, d)
    ensures Arrive(cfg, o, q, p, j) == Begin(cfg, o, q, j) + d(Link(q, p))
  {
    if j > 0 {
      FixedArrival(cfg, o, d, q, p, j - 1);
      StartsInOrder(cfg, o, q, j - 1, q);
    }
  }

  /** A detour over a third party is never faster: then every share is on time. */
  lemma TriangleIsOnTime(cfg: Config, o: Course, d: Link -> Time)
    requires FixedDelay(cfg, d) && TriangleInequality(cfg.parties, d)
    ensures OnTime(cfg, o)
  {
    hide Arrive, Begin;
    forall j, p, q, r | p in cfg.parties && q in cfg.parties && r in cfg.parties && 0 < j < o.opens.rounds && p != r
      && q != r && p != q
      ensures Arrive(cfg, o, q, r, j - 1) <= Arrive(cfg, o, p, r, j)
    {
      FixedArrival(cfg, o, d, q, r, j - 1);
      FixedArrival(cfg, o, d, q, p, j - 1);
      FixedArrival(cfg, o, d, p, r, j);
      StartsInOrder(cfg, o, p, j - 1, q);
    }
  }
}
