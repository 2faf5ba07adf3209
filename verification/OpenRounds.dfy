/**
 * Openings back to back over the simulated network. A receive from anyone does not say which opening
 * it belongs to, so that the parties stay in step is a matter of timing alone.
 */
module OpenRounds {
  import opened Wrappers
  import opened SimTypes
  import opened SwitchboardSpec
  import opened Kernel
  import opened Causality
  import opened Links
  import opened Wakeups
  import opened Sequences
  import opened Timetable

  function Sent(k: Sim, q: PartyId, p: PartyId): seq<SentRecord> { SentOn(k.sb, Link(q, p)) }

  /** How many packets of `q` the party `p` has taken. */
  function Taken(k: Sim, q: PartyId, p: PartyId): nat { |GotOn(k.sb, Link(q, p))| }

  function Unread(k: Sim, q: PartyId, p: PartyId): seq<Packet> { Queue(k.sb, Link(q, p)) }

  function Reached(k: Sim, q: PartyId, p: PartyId): nat { Delivered(k.sb, Link(q, p)) }

  function Where(cfg: Config, k: Sim, p: PartyId): Pos {
    At(Peers(cfg), |HistOf(k, p)|)
  }

  /** `q` and `p` are two different parties. */
  predicate Pair(cfg: Config, q: PartyId, p: PartyId) { q in cfg.parties && p in cfg.parties && q != p }

  function Order(cfg: Config, p: PartyId, q: PartyId): nat {
    IndexOf(Without(cfg.parties, p), q)
  }

  /** What `p` has sent to `q`, by its position. */
  ghost predicate SendsOk(cfg: Config, k: Sim, p: PartyId, q: PartyId) {
    Pair(cfg, q, p) ==>
      |Sent(k, p, q)| == Where(cfg, k, p).round + if Order(cfg, p, q) < Where(cfg, k, p).sent then 1 else 0
  }

  /** What `p` has taken from `q`: its share of every round so far, and perhaps of this one. */
  ghost predicate TakesOk(cfg: Config, k: Sim, p: PartyId, q: PartyId) {
    Pair(cfg, q, p) ==>
      var pos := Where(cfg, k, p);
      && pos.round <= Taken(k, q, p) <= pos.round + 1
      && (pos.sent < Peers(cfg) ==> Taken(k, q, p) == pos.round)
  }

  /** The peers whose share of the current round `p` has. */
  function Ahead(cfg: Config, k: Sim, p: PartyId): set<PartyId> {
    set q | q in cfg.parties && q != p && Taken(k, q, p) > Where(cfg, k, p).round
  }

  /** At most one packet awaits `p`, and it is of the round that `p` is collecting. */
  ghost predicate QueueOk(cfg: Config, k: Sim, p: PartyId, q: PartyId) {
    Pair(cfg, q, p) && Unread(k, q, p) != [] ==>
      var pos := Where(cfg, k, p);
      && |Unread(k, q, p)| == 1 && pos.sent == Peers(cfg) && Taken(k, q, p) == pos.round
      && (forall r :: Pair(cfg, r, p) && r != q ==> Unread(k, r, p) == [])
  }

  /** The packets of the link are scheduled for the instants that the timetable says. */
  ghost predicate OnTable(cfg: Config, o: Course, q: PartyId, p: PartyId, sent: seq<SentRecord>) {
    forall j :: 0 <= j < |sent| ==> sent[j].arrival == Arrive(cfg, o, q, p, j)
  }

  /** The first `reached` packets from `q` are not before those that `r` sent to `p` the round before. */
  ghost predicate InTurn(cfg: Config, o: Course, q: PartyId, r: PartyId, p: PartyId, reached: nat) {
    forall j :: 0 < j < reached ==> Arrive(cfg, o, r, p, j - 1) <= Arrive(cfg, o, q, p, j)
  }

  /** Each packet was sent after the packet of the round before had been sent by the other party. */
  predicate InSequence(other: seq<SentRecord>, sent: seq<SentRecord>) {
    && |sent| <= |other| + 1
    && forall j :: 0 <= j < |other| && j + 1 < |sent| ==> other[j].seqNo < sent[j + 1].seqNo
  }

  /** The clock shows when the round started, or when a share of this round has arrived since. */
  ghost predicate ClockOk(cfg: Config, o: Course, k: Sim, p: PartyId) {
    var i := Where(cfg, k, p).round;
    && Begin(cfg, o, p, i) <= Clock(k.sb, p)
    && (Clock(k.sb, p) == Begin(cfg, o, p, i)
        || exists q :: Pair(cfg, q, p) && Reached(k, q, p) > i && Clock(k.sb, p) == Arrive(cfg, o, q, p, i))
  }

  /** While a party is sending its shares of a round none of them has been delivered. */
  ghost predicate UnreadOk(cfg: Config, k: Sim, p: PartyId, q: PartyId) {
    Pair(cfg, q, p) && Where(cfg, k, p).sent < Peers(cfg) ==> Reached(k, p, q) <= Where(cfg, k, p).round
  }

  ghost predicate PartyOk(cfg: Config, o: Course, k: Sim, p: PartyId) {
    var pos := Where(cfg, k, p);
    && pos.round <= o.opens.rounds && (pos.round == o.opens.rounds ==> pos.sent == 0)
    && |Ahead(cfg, k, p)| == pos.got
    && ClockOk(cfg, o, k, p)
    && (forall q :: SendsOk(cfg, k, p, q))
    && (forall q :: TakesOk(cfg, k, p, q))
    && (forall q :: QueueOk(cfg, k, p, q))
  }

  ghost predicate LinksOk(cfg: Config, o: Course, k: Sim) {
    && (forall q, p :: Pair(cfg, q, p) ==> OnTable(cfg, o, q, p, Sent(k, q, p)))
    && (forall q, r, p :: Pair(cfg, q, p) && Pair(cfg, r, p) && q != r ==> InTurn(cfg, o, q, r, p, Reached(k, q, p)))
    && (forall q, r, p :: Pair(cfg, q, p) && Pair(cfg, r, p) && q != r ==> InSequence(Sent(k, r, p), Sent(k, q, p)))
    && (forall l :: SentOn(k.sb, l) != [] ==> Pair(cfg, l.sender, l.recipient))
    && (forall e :: e in k.sb.events ==> e.kind.Delivery?)
  }

  /** All parties are in step, and on the timetable. */
  ghost predicate Lockstep(cfg: Config, o: Course, k: Sim) {
    && LinksOk(cfg, o, k)
    && (forall p :: p in cfg.parties ==> PartyOk(cfg, o, k, p))
    && (forall p, q :: Pair(cfg, q, p) ==> UnreadOk(cfg, k, p, q))
  }

  /** What holds in every state of every run. */
  ghost predicate Sound(cfg: Config, o: Course, k: Sim) {
    Plays(cfg, o.opens) && Wf(cfg, k) && WfTime(cfg, k) && WfLinks(k.sb, cfg.delay) && WfWait(cfg, k)
    && |cfg.parties| > 1 && (forall p :: p in k.hist <==> p in cfg.parties)
    && forall p :: p in cfg.parties ==> SizeFits(cfg, o, p, HistOf(k, p))
  }

  lemma OpAt(cfg: Config, o: Course, k: Sim, p: PartyId)
    requires Plays(cfg, o.opens) && p in k.hist && p in cfg.parties
    ensures |Without(cfg.parties, p)| == Peers(cfg) && Distinct(Without(cfg.parties, p))
    ensures var pos, others := Where(cfg, k, p), Without(cfg.parties, p);
      OpOf(cfg, k, p) ==
        if pos.round >= o.opens.rounds then Finish
        else if pos.sent < |others| then Send(others[pos.sent], Reveals(o.opens, Peers(cfg), p, HistOf(k, p)))
        else RecvAny
  {
    WithoutCount(cfg.parties, p);
  }

  lemma PairFacts(cfg: Config, o: Course, k: Sim, q: PartyId, p: PartyId)
    requires Sound(cfg, o, k) && Lockstep(cfg, o, k) && Pair(cfg, q, p)
    ensures OnTable(cfg, o, q, p, Sent(k, q, p)) && PartyOk(cfg, o, k, p) && UnreadOk(cfg, k, p, q)
    ensures LinkOk(k.sb, cfg.delay, Link(q, p))
  {
  }

  lemma TripleFacts(cfg: Config, o: Course, k: Sim, q: PartyId, s: PartyId, p: PartyId)
    requires LinksOk(cfg, o, k) && Pair(cfg, q, p) && Pair(cfg, s, p) && q != s
    ensures InTurn(cfg, o, q, s, p, Reached(k, q, p)) && InSequence(Sent(k, s, p), Sent(k, q, p))
  {
  }

  /** Nothing that concerns party `s` is different in `r`. */
  ghost predicate SameParty(k: Sim, r: Sim, s: PartyId) {
    && HistOf(r, s) == HistOf(k, s) && Clock(r.sb, s) == Clock(k.sb, s)
    && (forall q :: Taken(r, q, s) == Taken(k, q, s) && Unread(r, q, s) == Unread(k, q, s))
    && (forall q :: Reached(r, q, s) == Reached(k, q, s) && |Sent(r, s, q)| == |Sent(k, s, q)|)
  }

  lemma PartyFrame(cfg: Config, o: Course, k: Sim, r: Sim, s: PartyId)
    requires |cfg.parties| > 1 && s in k.hist && s in r.hist && PartyOk(cfg, o, k, s) && SameParty(k, r, s)
    ensures PartyOk(cfg, o, r, s)
  {
    hide At, Arrive, Begin, IndexOf, Without, Sent, Taken, Unread, Reached;
    assert Ahead(cfg, r, s) == Ahead(cfg, k, s);
    assert ClockOk(cfg, o, r, s);
    forall q ensures SendsOk(cfg, r, s, q) && TakesOk(cfg, r, s, q) && QueueOk(cfg, r, s, q) {
      assert SendsOk(cfg, k, s, q) && TakesOk(cfg, k, s, q) && QueueOk(cfg, k, s, q);
    }
  }

  /** A step that moves no packet and no clock keeps everything. */
  lemma QuietStep(cfg: Config, o: Course, k: Sim, r: Sim)
    requires Sound(cfg, o, k) && Lockstep(cfg, o, k)
    requires r.hist == k.hist && r.sb == k.sb.(parked := r.sb.parked)
    ensures Lockstep(cfg, o, r)
  {
    hide At, Arrive, Begin, IndexOf, Without, Wf, WfTime, WfLinks, WfWait, PartyOk, OnTable, InTurn, InSequence;
    forall q, p ensures Sent(r, q, p) == Sent(k, q, p) && Reached(r, q, p) == Reached(k, q, p) {}
    forall p | p in cfg.parties ensures PartyOk(cfg, o, r, p) {
      PartyFrame(cfg, o, k, r, p);
    }
    forall p, q | Pair(cfg, q, p) ensures UnreadOk(cfg, r, p, q) {
      assert UnreadOk(cfg, k, p, q);
    }
  }

  /** What party `p` does by sending its share of the round to `x`. */
  ghost predicate SendStep(cfg: Config, o: Course, k: Sim, p: PartyId, x: PartyId, r: Sim) {
    var pos, others := Where(cfg, k, p), Without(cfg.parties, p);
    && pos.round < o.opens.rounds && |others| == Peers(cfg) && Distinct(others) && pos.sent < |others|
      && x == others[pos.sent]
    && r == Advance(k, p, SendPacket(k.sb, cfg.delay, Link(p, x), Reveals(o.opens, Peers(cfg), p, HistOf(k, p))), Done)
  }

  /** Whatever is not the link just used is as it was. */
  lemma SendFrame(cfg: Config, o: Course, k: Sim, p: PartyId, x: PartyId, r: Sim, q: PartyId, s: PartyId)
    requires |cfg.parties| > 1 && p in k.hist && SendStep(cfg, o, k, p, x, r)
    ensures Taken(r, q, s) == Taken(k, q, s) && Unread(r, q, s) == Unread(k, q, s)
      && Reached(r, q, s) == Reached(k, q, s)
    ensures Clock(r.sb, s) == Clock(k.sb, s) && (s != p && s in k.hist ==> s in r.hist && HistOf(r, s) == HistOf(k, s))
    ensures if q == p && s == x then
        var arrival := ArrivalOf(k.sb, cfg.delay, Link(p, x), Reveals(o.opens, Peers(cfg), p, HistOf(k, p)));
        Sent(r, q, s) == Sent(k, q, s) + [SentRecord(Reveals(o.opens, Peers(cfg), p, HistOf(k, p)), Clock(k.sb, p),
          arrival, k.sb.nextSeq)]
      else Sent(r, q, s) == Sent(k, q, s)
  {
    hide At, ArrivalOf;
  }

  lemma SendOthers(cfg: Config, o: Course, k: Sim, p: PartyId, x: PartyId, r: Sim, s: PartyId)
    requires Sound(cfg, o, k) && Lockstep(cfg, o, k) && p in cfg.parties && SendStep(cfg, o, k, p, x, r)
    requires s in cfg.parties && s != p
    ensures s in r.hist && PartyOk(cfg, o, r, s)
  {
    hide At, Arrive, Begin, IndexOf, Without, Sent, Taken, Unread, Reached, LinksOk, Wf, WfTime, WfLinks, WfWait,
      Plays, SendStep, PartyOk;
    SendFrame(cfg, o, k, p, x, r, p, s);
    forall q ensures Taken(r, q, s) == Taken(k, q, s) && Unread(r, q, s) == Unread(k, q, s)
    ensures Reached(r, q, s) == Reached(k, q, s) && Sent(r, s, q) == Sent(k, s, q)
    {
      SendFrame(cfg, o, k, p, x, r, q, s);
      SendFrame(cfg, o, k, p, x, r, s, q);
    }
    PartyFrame(cfg, o, k, r, s);
  }

  /** The clock does not move, and more packets of the round may have arrived. */
  lemma ClockFrame(cfg: Config, o: Course, k: Sim, r: Sim, p: PartyId)
    requires |cfg.parties| > 1 && p in k.hist && p in r.hist && ClockOk(cfg, o, k, p)
    requires Where(cfg, r, p).round == Where(cfg, k, p).round && Clock(r.sb, p) == Clock(k.sb, p)
    requires forall q :: Reached(r, q, p) == Reached(k, q, p)
    ensures ClockOk(cfg, o, r, p)
  {
    hide At, Arrive, Begin, Reached;
    var i := Where(cfg, k, p).round;
    if Clock(k.sb, p) != Begin(cfg, o, p, i) {
      var q :| Pair(cfg, q, p) && Reached(k, q, p) > i && Clock(k.sb, p) == Arrive(cfg, o, q, p, i);
      assert Reached(r, q, p) > i;
    }
  }

  lemma SendWhere(cfg: Config, o: Course, k: Sim, p: PartyId, x: PartyId, r: Sim)
    requires |cfg.parties| > 1 && p in k.hist && SendStep(cfg, o, k, p, x, r)
    ensures p in r.hist && Where(cfg, r, p) == Where(cfg, k, p).(sent := Where(cfg, k, p).sent + 1)
    ensures forall s :: s in r.hist <==> s in k.hist
    ensures forall s :: s in k.hist && s != p ==> Where(cfg, r, s) == Where(cfg, k, s)
  {
    hide SendPacket;
  }

  lemma SendPair(cfg: Config, o: Course, k: Sim, p: PartyId, x: PartyId, r: Sim, q: PartyId)
    requires |cfg.parties| > 1 && p in k.hist && p in r.hist && SendStep(cfg, o, k, p, x, r)
    requires SendsOk(cfg, k, p, q) && TakesOk(cfg, k, p, q) && QueueOk(cfg, k, p, q)
    ensures SendsOk(cfg, r, p, q) && TakesOk(cfg, r, p, q) && QueueOk(cfg, r, p, q)
    ensures Pair(cfg, q, p) ==> Unread(k, q, p) == []
  {
    hide At, IndexOf, Without, Sent, Taken, Unread, Advance, SendPacket, Where, HistOf, ArrivalOf, Reached;
    SendWhere(cfg, o, k, p, x, r);
    SendFrame(cfg, o, k, p, x, r, q, p);
    SendFrame(cfg, o, k, p, x, r, p, q);
    IndexOfAt(Without(cfg.parties, p), Where(cfg, k, p).sent);
  }

  lemma SendSelf(cfg: Config, o: Course, k: Sim, p: PartyId, x: PartyId, r: Sim)
    requires |cfg.parties| > 1 && p in k.hist && PartyOk(cfg, o, k, p) && SendStep(cfg, o, k, p, x, r)
    ensures p in r.hist && PartyOk(cfg, o, r, p)
  {
    SendWhere(cfg, o, k, p, x, r);
    SendRoom(cfg, o, k, p, x, r);
    hide At, Arrive, Begin, IndexOf, Without, Sent, Taken, Unread, Reached, ClockOk, Where, SendStep, SendsOk,
      TakesOk, QueueOk;
    forall q ensures Taken(r, q, p) == Taken(k, q, p) && Reached(r, q, p) == Reached(k, q, p)
      && Clock(r.sb, p) == Clock(k.sb, p)
    {
      SendFrame(cfg, o, k, p, x, r, q, p);
    }
    assert Ahead(cfg, r, p) == Ahead(cfg, k, p);
    ClockFrame(cfg, o, k, r, p);
    forall q ensures SendsOk(cfg, r, p, q) && TakesOk(cfg, r, p, q) && QueueOk(cfg, r, p, q) {
      SendPair(cfg, o, k, p, x, r, q);
    }
  }

  lemma SendRoom(cfg: Config, o: Course, k: Sim, p: PartyId, x: PartyId, r: Sim)
    requires |cfg.parties| > 1 && p in k.hist && SendStep(cfg, o, k, p, x, r)
    ensures Where(cfg, k, p).round < o.opens.rounds && Where(cfg, k, p).sent < Peers(cfg)
    ensures p in cfg.parties ==> Pair(cfg, x, p)
  {
    assert x in Without(cfg.parties, p);
  }

  /** The share just sent arrives when the timetable says. */
  lemma SendArrival(cfg: Config, o: Course, k: Sim, p: PartyId, x: PartyId, r: Sim)
    requires Sound(cfg, o, k) && p in cfg.parties && PartyOk(cfg, o, k, p) && SendStep(cfg, o, k, p, x, r)
    requires OnTable(cfg, o, p, x, Sent(k, p, x))
    ensures Pair(cfg, x, p) && |Sent(k, p, x)| == Where(cfg, k, p).round
    ensures ArrivalOf(k.sb, cfg.delay, Link(p, x), Reveals(o.opens, Peers(cfg), p, HistOf(k, p)))
      == Arrive(cfg, o, p, x, Where(cfg, k, p).round)
  {
    hide At, Wf, WfTime, WfWait, Plays, PartyOk, UnreadOk, Ahead, SendStep, Without;
    SendCount(cfg, o, k, p, x, r);
    SendRoom(cfg, o, k, p, x, r);
    SenderClock(cfg, o, k, p);
    assert LinkOk(k.sb, cfg.delay, Link(p, x));
  }

  lemma SendCount(cfg: Config, o: Course, k: Sim, p: PartyId, x: PartyId, r: Sim)
    requires |cfg.parties| > 1 && p in k.hist && p in cfg.parties && PartyOk(cfg, o, k, p)
    requires SendStep(cfg, o, k, p, x, r)
    ensures Pair(cfg, x, p) && |Sent(k, p, x)| == Where(cfg, k, p).round
  {
    hide At, IndexOf, QueueOk, TakesOk, ClockOk, Ahead, Sent, Reveals;
    var pos, others := Where(cfg, k, p), Without(cfg.parties, p);
    assert x in others;
    hide Without;
    IndexOfAt(others, pos.sent);
    assert SendsOk(cfg, k, p, x);
  }

  /** A party that is sending started its round just now. */
  lemma SenderClock(cfg: Config, o: Course, k: Sim, p: PartyId)
    requires |cfg.parties| > 1 && p in k.hist && PartyOk(cfg, o, k, p) && Where(cfg, k, p).sent < Peers(cfg)
    ensures Clock(k.sb, p) == Begin(cfg, o, p, Where(cfg, k, p).round)
    ensures forall q :: Pair(cfg, q, p) ==> Reached(k, q, p) == Where(cfg, k, p).round && Unread(k, q, p) == []
  {
    hide At, Begin, Arrive;
    forall q | Pair(cfg, q, p) ensures Reached(k, q, p) == Where(cfg, k, p).round && Unread(k, q, p) == [] {
      assert QueueOk(cfg, k, p, q) && TakesOk(cfg, k, p, q);
    }
  }

  lemma SharedWithAll(cfg: Config, k: Sim, s: PartyId, p: PartyId, x: PartyId, i: nat)
    requires |cfg.parties| > 1 && s in k.hist && Pair(cfg, s, p) && Pair(cfg, x, s)
    requires SendsOk(cfg, k, s, p) && SendsOk(cfg, k, s, x) && UnreadOk(cfg, k, s, p)
    requires Order(cfg, s, x) < Peers(cfg) && i < Reached(k, s, p) <= |Sent(k, s, p)|
    ensures i < |Sent(k, s, x)|
  {
    hide At, IndexOf, Without, Reached, Sent;
  }

  /** Whoever shared with a party that has gone on to this round has shared with everyone. */
  lemma AllSharedBefore(cfg: Config, o: Course, k: Sim, p: PartyId, s: PartyId, x: PartyId, i: nat)
    requires Sound(cfg, o, k) && Lockstep(cfg, o, k) && Pair(cfg, s, p) && Pair(cfg, x, s)
    requires i < Reached(k, s, p)
    ensures i < |Sent(k, s, x)|
  {
    OrderBound(cfg, s, x);
    hide At, Wf, WfTime, WfWait, Plays, ClockOk, Ahead, LinksOk, Order, SendsOk, UnreadOk;
    assert PartyOk(cfg, o, k, s) && SendsOk(cfg, k, s, p) && SendsOk(cfg, k, s, x) && UnreadOk(cfg, k, s, p);
    assert LinkOk(k.sb, cfg.delay, Link(s, p));
    SharedWithAll(cfg, k, s, p, x, i);
  }

  lemma OrderBound(cfg: Config, p: PartyId, q: PartyId)
    requires ValidConfig(cfg) && Pair(cfg, q, p) && |cfg.parties| > 1
    ensures Order(cfg, p, q) < Peers(cfg)
  {
    WithoutCount(cfg.parties, p);
  }

  lemma SeqBound(cfg: Config, k: Sim, s: PartyId, x: PartyId, i: nat)
    requires WfLinks(k.sb, cfg.delay) && i < |Sent(k, s, x)|
    ensures Sent(k, s, x)[i].seqNo < k.sb.nextSeq
  {
    assert LinkOk(k.sb, cfg.delay, Link(s, x));
  }

  /** When `p` sends to `x`, every other party has sent `x` its share of the round before. */
  lemma SentAfterAll(cfg: Config, o: Course, k: Sim, p: PartyId, x: PartyId, r: Sim, s: PartyId)
    requires Sound(cfg, o, k) && Lockstep(cfg, o, k) && p in cfg.parties && SendStep(cfg, o, k, p, x, r)
    requires Pair(cfg, s, x) && s != p
    ensures |Sent(k, p, x)| > 0 ==>
      var i := |Sent(k, p, x)| - 1; i < |Sent(k, s, x)| && Sent(k, s, x)[i].seqNo < k.sb.nextSeq
  {
    hide At, Wf, WfTime, WfWait, Plays, Sent, SendStep, Reached, WfLinks, ArrivalOf, PartyOk, LinksOk, Where, OnTable;
    SendRoom(cfg, o, k, p, x, r);
    PairFacts(cfg, o, k, p, x);
    PairFacts(cfg, o, k, x, p);
    SendArrival(cfg, o, k, p, x, r);
    SenderClock(cfg, o, k, p);
    var i := Where(cfg, k, p).round;
    if i > 0 {
      AllSharedBefore(cfg, o, k, p, s, x, i - 1);
      SeqBound(cfg, k, s, x, i - 1);
    }
  }

  lemma SequenceGrows(other: seq<SentRecord>, sent: seq<SentRecord>, rec: SentRecord)
    requires InSequence(other, sent)
    ensures InSequence(other + [rec], sent)
    ensures (|sent| > 0 ==> |sent| <= |other| && other[|sent| - 1].seqNo < rec.seqNo) ==>
      InSequence(other, sent + [rec])
  {
  }

  lemma SendSequence(cfg: Config, o: Course, k: Sim, p: PartyId, x: PartyId, r: Sim, q: PartyId, s: PartyId, y: PartyId)
    requires Sound(cfg, o, k) && Lockstep(cfg, o, k) && p in cfg.parties && SendStep(cfg, o, k, p, x, r)
    requires Pair(cfg, q, y) && Pair(cfg, s, y) && q != s
    ensures InSequence(Sent(r, s, y), Sent(r, q, y))
  {
    SendFrame(cfg, o, k, p, x, r, q, y);
    SendFrame(cfg, o, k, p, x, r, s, y);
    hide At, Wf, WfTime, WfWait, Plays, Sent, SendStep, Reached, WfLinks, ArrivalOf, PartyOk, LinksOk, Where,
      InSequence;
    TripleFacts(cfg, o, k, q, s, y);
    var rec := SentRecord(Reveals(o.opens, Peers(cfg), p, HistOf(k, p)), Clock(k.sb, p),
      ArrivalOf(k.sb, cfg.delay, Link(p, x), Reveals(o.opens, Peers(cfg), p, HistOf(k, p))), k.sb.nextSeq);
    SequenceGrows(Sent(k, s, y), Sent(k, q, y), rec);
    if q == p && y == x {
      SentAfterAll(cfg, o, k, p, x, r, s);
    }
  }

  lemma SendLinks(cfg: Config, o: Course, k: Sim, p: PartyId, x: PartyId, r: Sim)
    requires Sound(cfg, o, k) && Lockstep(cfg, o, k) && p in cfg.parties && SendStep(cfg, o, k, p, x, r)
    ensures LinksOk(cfg, o, r)
  {
    hide At, Begin, Arrive, Without, Wf, WfTime, WfWait, WfLinks, Plays, Sent, SendStep, Reached, InSequence, Where,
      PartyOk;
    SendRoom(cfg, o, k, p, x, r);
    assert OnTable(cfg, o, p, x, Sent(k, p, x));
    SendArrival(cfg, o, k, p, x, r);
    forall q, y | Pair(cfg, q, y) ensures OnTable(cfg, o, q, y, Sent(r, q, y)) {
      SendFrame(cfg, o, k, p, x, r, q, y);
      assert OnTable(cfg, o, q, y, Sent(k, q, y));
    }
    forall q, s, y | Pair(cfg, q, y) && Pair(cfg, s, y) && q != s ensures InTurn(cfg, o, q, s, y, Reached(r, q, y)) {
      SendFrame(cfg, o, k, p, x, r, q, y);
      assert InTurn(cfg, o, q, s, y, Reached(k, q, y));
    }
    forall q, s, y | Pair(cfg, q, y) && Pair(cfg, s, y) && q != s ensures InSequence(Sent(r, s, y), Sent(r, q, y)) {
      SendSequence(cfg, o, k, p, x, r, q, s, y);
    }
    SendStrangers(cfg, o, k, p, x, r);
  }

  lemma SendStrangers(cfg: Config, o: Course, k: Sim, p: PartyId, x: PartyId, r: Sim)
    requires |cfg.parties| > 1 && p in k.hist && LinksOk(cfg, o, k) && Pair(cfg, x, p) && SendStep(cfg, o, k, p, x, r)
    ensures forall l :: SentOn(r.sb, l) != [] ==> Pair(cfg, l.sender, l.recipient)
    ensures forall e :: e in r.sb.events ==> e.kind.Delivery?
  {
    hide At, Without, ArrivalOf;
  }

  lemma SendKeepsStep(cfg: Config, o: Course, k: Sim, p: PartyId, x: PartyId, r: Sim)
    requires Sound(cfg, o, k) && Lockstep(cfg, o, k) && p in cfg.parties && SendStep(cfg, o, k, p, x, r)
    ensures Lockstep(cfg, o, r)
  {
    hide At, Begin, Arrive, Without, Wf, WfTime, WfWait, WfLinks, Plays, Sent, SendStep, Reached, PartyOk, LinksOk,
      Where;
    SendWhere(cfg, o, k, p, x, r);
    SendLinks(cfg, o, k, p, x, r);
    SendSelf(cfg, o, k, p, x, r);
    forall s | s in cfg.parties ensures PartyOk(cfg, o, r, s) {
      if s != p { SendOthers(cfg, o, k, p, x, r, s); }
    }
    forall s, q | Pair(cfg, q, s) ensures UnreadOk(cfg, r, s, q) {
      assert UnreadOk(cfg, k, s, q);
      SendUnread(cfg, o, k, p, x, r, s, q);
    }
  }

  lemma SendUnread(cfg: Config, o: Course, k: Sim, p: PartyId, x: PartyId, r: Sim, s: PartyId, q: PartyId)
    requires |cfg.parties| > 1 && p in k.hist && SendStep(cfg, o, k, p, x, r)
    requires s in k.hist && s in r.hist && UnreadOk(cfg, k, s, q)
    ensures UnreadOk(cfg, r, s, q)
  {
    SendWhere(cfg, o, k, p, x, r);
    SendFrame(cfg, o, k, p, x, r, q, s);
    SendFrame(cfg, o, k, p, x, r, s, q);
    hide At, SendStep, Reached;
  }

  /** What collecting party `p` does by taking a packet of `q`. */
  ghost predicate TakeStep(cfg: Config, o: Course, k: Sim, p: PartyId, q: PartyId, r: Sim) {
    && Where(cfg, k, p).round < o.opens.rounds && Where(cfg, k, p).sent == Peers(cfg)
    && Pair(cfg, q, p) && Unread(k, q, p) != []
    && Queue(UnparkAny(k.sb, p, cfg.parties), Link(q, p)) == Unread(k, q, p)
    && r == Advance(k, p, TakePacket(UnparkAny(k.sb, p, cfg.parties), Link(q, p)), Got(q, Unread(k, q, p)[0]))
  }

  lemma TakeFrame(cfg: Config, o: Course, k: Sim, p: PartyId, q: PartyId, r: Sim, s: PartyId, y: PartyId)
    requires |cfg.parties| > 1 && p in k.hist && TakeStep(cfg, o, k, p, q, r)
    ensures Sent(r, s, y) == Sent(k, s, y) && Reached(r, s, y) == Reached(k, s, y) && Clock(r.sb, y) == Clock(k.sb, y)
    ensures if s == q && y == p then Taken(r, s, y) == Taken(k, s, y) + 1 && Unread(r, s, y) == Unread(k, s, y)[1..]
      else Taken(r, s, y) == Taken(k, s, y) && Unread(r, s, y) == Unread(k, s, y)
    ensures r.sb.events == k.sb.events && r.sb.sent == k.sb.sent
  {
    hide At;
  }

  lemma TakeWhere(cfg: Config, o: Course, k: Sim, p: PartyId, q: PartyId, r: Sim)
    requires |cfg.parties| > 1 && p in k.hist && TakeStep(cfg, o, k, p, q, r)
    ensures forall s :: s in r.hist <==> s in k.hist
    ensures forall s :: s in k.hist && s != p ==> HistOf(r, s) == HistOf(k, s)
    ensures var pos := Where(cfg, k, p);
      Where(cfg, r, p) == if pos.got + 1 < Peers(cfg) then pos.(got := pos.got + 1) else Pos(pos.round + 1, 0, 0)
  {
    hide TakePacket, UnparkAny;
  }

  lemma TakeOthers(cfg: Config, o: Course, k: Sim, p: PartyId, q: PartyId, r: Sim, s: PartyId)
    requires |cfg.parties| > 1 && p in k.hist && TakeStep(cfg, o, k, p, q, r)
    requires s in k.hist && s != p && PartyOk(cfg, o, k, s)
    ensures s in r.hist && PartyOk(cfg, o, r, s)
  {
    TakeWhere(cfg, o, k, p, q, r);
    hide Sent, Taken, Unread, Reached, TakeStep, PartyOk, At;
    forall y ensures Taken(r, y, s) == Taken(k, y, s) && Unread(r, y, s) == Unread(k, y, s)
    ensures Reached(r, y, s) == Reached(k, y, s) && Sent(r, s, y) == Sent(k, s, y) && Clock(r.sb, s) == Clock(k.sb, s)
    {
      TakeFrame(cfg, o, k, p, q, r, y, s);
      TakeFrame(cfg, o, k, p, q, r, s, y);
    }
    PartyFrame(cfg, o, k, r, s);
  }

  lemma TakeRoom(cfg: Config, o: Course, k: Sim, p: PartyId, q: PartyId, r: Sim)
    requires |cfg.parties| > 1 && p in k.hist && TakeStep(cfg, o, k, p, q, r)
    ensures Where(cfg, k, p).round < o.opens.rounds && Where(cfg, k, p).sent == Peers(cfg) && Unread(k, q, p) != []
      && Pair(cfg, q, p)
    ensures Where(cfg, k, p).got < Peers(cfg)
  {
  }

  /** What the step does to the numbers of packets taken and unread, seen from `p`. */
  lemma TakeCounts(cfg: Config, o: Course, k: Sim, p: PartyId, q: PartyId, r: Sim)
    requires |cfg.parties| > 1 && p in k.hist && TakeStep(cfg, o, k, p, q, r) && PartyOk(cfg, o, k, p)
    ensures p in r.hist && Taken(k, q, p) == Where(cfg, k, p).round
    ensures forall s :: Taken(r, s, p) == Taken(k, s, p) + if s == q then 1 else 0
    ensures forall s :: Pair(cfg, s, p) ==> Unread(r, s, p) == []
    ensures q !in Ahead(cfg, k, p) && |Ahead(cfg, k, p) + {q}| == Where(cfg, k, p).got + 1
  {
    TakeWhere(cfg, o, k, p, q, r);
    TakeRoom(cfg, o, k, p, q, r);
    hide At, Sent, Taken, Unread, Reached, TakeStep, ClockOk, SendsOk, Where, TakesOk;
    assert QueueOk(cfg, k, p, q);
    forall s ensures Taken(r, s, p) == Taken(k, s, p) + if s == q then 1 else 0
    ensures Pair(cfg, s, p) ==> Unread(r, s, p) == []
    {
      TakeFrame(cfg, o, k, p, q, r, s, p);
    }
  }

  lemma TakeMid(cfg: Config, o: Course, k: Sim, p: PartyId, q: PartyId, r: Sim)
    requires |cfg.parties| > 1 && p in k.hist && TakeStep(cfg, o, k, p, q, r) && PartyOk(cfg, o, k, p)
    requires Where(cfg, k, p).got + 1 < Peers(cfg)
    ensures p in r.hist && |Ahead(cfg, r, p)| == Where(cfg, r, p).got
  {
    TakeCounts(cfg, o, k, p, q, r);
    TakeWhere(cfg, o, k, p, q, r);
    TakeRoom(cfg, o, k, p, q, r);
    hide At, Taken, TakeStep, PartyOk, Where;
    assert Ahead(cfg, r, p) == Ahead(cfg, k, p) + {q};
  }

  /** The last share of the round: now `p` has one of every peer. */
  lemma TakeLast(cfg: Config, o: Course, k: Sim, p: PartyId, q: PartyId, r: Sim)
    requires |cfg.parties| > 1 && p in k.hist && TakeStep(cfg, o, k, p, q, r) && PartyOk(cfg, o, k, p)
    requires Distinct(cfg.parties) && p in cfg.parties && Where(cfg, k, p).got + 1 == Peers(cfg)
    ensures p in r.hist && Ahead(cfg, r, p) == {}
    ensures forall s :: Pair(cfg, s, p) ==> Taken(r, s, p) == Where(cfg, k, p).round + 1
  {
    TakeCounts(cfg, o, k, p, q, r);
    TakeWhere(cfg, o, k, p, q, r);
    TakeRoom(cfg, o, k, p, q, r);
    assert forall s :: TakesOk(cfg, k, p, s);
    hide At, Taken, TakeStep, PartyOk, Where, Without;
    var peers := Elements(Without(cfg.parties, p));
    var ahead := Ahead(cfg, k, p) + {q};
    WithoutCount(cfg.parties, p);
    ElementsCount(Without(cfg.parties, p));
    SubsetCount(ahead, peers);
    forall s | Pair(cfg, s, p) ensures Taken(r, s, p) == Where(cfg, k, p).round + 1 {
      assert s in peers && TakesOk(cfg, k, p, s);
    }
    assert Ahead(cfg, r, p) == {};
  }

  /** The clock of a party that completes its round is at the start of the next. */
  lemma TakeClock(cfg: Config, o: Course, k: Sim, p: PartyId, q: PartyId, r: Sim)
    requires Sound(cfg, o, k) && Lockstep(cfg, o, k) && p in cfg.parties && TakeStep(cfg, o, k, p, q, r)
    ensures p in r.hist && ClockOk(cfg, o, r, p)
  {
    TakeWhere(cfg, o, k, p, q, r);
    TakeRoom(cfg, o, k, p, q, r);
    assert PartyOk(cfg, o, k, p);
    var pos := Where(cfg, k, p);
    forall s ensures Reached(r, s, p) == Reached(k, s, p) && Clock(r.sb, p) == Clock(k.sb, p) {
      TakeFrame(cfg, o, k, p, q, r, s, p);
    }
    if pos.got + 1 < Peers(cfg) {
      ClockFrame(cfg, o, k, r, p);
    } else {
      TakeLast(cfg, o, k, p, q, r);
      NextRound(cfg, o, k, p, q, r);
    }
  }

  lemma NextRound(cfg: Config, o: Course, k: Sim, p: PartyId, q: PartyId, r: Sim)
    requires Sound(cfg, o, k) && Lockstep(cfg, o, k) && p in cfg.parties
    requires p in r.hist && Where(cfg, r, p).round == Where(cfg, k, p).round + 1
    requires Clock(r.sb, p) == Clock(k.sb, p)
    requires forall s :: Reached(r, s, p) == Reached(k, s, p)
    requires forall s :: Pair(cfg, s, p) ==> Taken(r, s, p) > Where(cfg, k, p).round
    ensures ClockOk(cfg, o, r, p)
  {
    hide At, Reached, Taken, Where, LinksOk, Wf, WfTime, WfLinks, WfWait, Plays, Arrive, Begin, SendsOk, TakesOk,
      QueueOk, Ahead, UnreadOk, Sound;
    var i, t := Where(cfg, k, p).round, Clock(k.sb, p);
    assert PartyOk(cfg, o, k, p);
    forall s | s in cfg.parties && s != p ensures Arrive(cfg, o, s, p, i) <= t {
      TakenLess(r, s, p);
      Landing(cfg, o, k, s, p, i);
    }
    if t != Begin(cfg, o, p, i) {
      var s :| Pair(cfg, s, p) && Reached(k, s, p) > i && t == Arrive(cfg, o, s, p, i);
      assert s in cfg.parties && s != p;
    }
    StartsWhenComplete(cfg, o, p, i, t);
  }

  lemma TakenLess(k: Sim, s: PartyId, p: PartyId)
    ensures Taken(k, s, p) <= Reached(k, s, p)
  {
  }

  /** What has reached `p` arrived no later than its clock shows. */
  lemma Landing(cfg: Config, o: Course, k: Sim, s: PartyId, p: PartyId, i: nat)
    requires Sound(cfg, o, k) && Lockstep(cfg, o, k) && Pair(cfg, s, p) && i < Reached(k, s, p)
    ensures Arrive(cfg, o, s, p, i) <= Clock(k.sb, p)
  {
    PairFacts(cfg, o, k, s, p);
    hide At, Arrive, PartyOk, LinksOk, Wf, WfTime, WfLinks, WfWait, Plays, SentInOrder, Airborne, UnreadOk;
    assert Sent(k, s, p)[i].arrival == Arrive(cfg, o, s, p, i);
  }

  lemma TakePair(cfg: Config, o: Course, k: Sim, p: PartyId, q: PartyId, r: Sim, s: PartyId)
    requires ValidConfig(cfg) && |cfg.parties| > 1 && p in k.hist && p in cfg.parties && TakeStep(cfg, o, k, p, q, r)
      && PartyOk(cfg, o, k, p)
    ensures p in r.hist && SendsOk(cfg, r, p, s) && TakesOk(cfg, r, p, s) && QueueOk(cfg, r, p, s)
  {
    TakeWhere(cfg, o, k, p, q, r);
    TakeRoom(cfg, o, k, p, q, r);
    TakeCounts(cfg, o, k, p, q, r);
    TakeFrame(cfg, o, k, p, q, r, p, s);
    assert SendsOk(cfg, k, p, s) && TakesOk(cfg, k, p, s);
    if Pair(cfg, s, p) { OrderBound(cfg, p, s); }
    if Where(cfg, k, p).got + 1 == Peers(cfg) { TakeLast(cfg, o, k, p, q, r); }
    hide At, Sent, Taken, Unread, Reached, TakeStep, ClockOk, Where, Ahead, PartyOk, Order;
  }

  lemma TakeSelf(cfg: Config, o: Course, k: Sim, p: PartyId, q: PartyId, r: Sim)
    requires Sound(cfg, o, k) && Lockstep(cfg, o, k) && p in cfg.parties && TakeStep(cfg, o, k, p, q, r)
    ensures p in r.hist && PartyOk(cfg, o, r, p)
  {
    hide At, Begin, Arrive, Sent, Taken, Unread, Reached, TakeStep, ClockOk, Where, LinksOk, Ahead, SendsOk, TakesOk,
      QueueOk, Wf, WfTime, WfWait, WfLinks;
    TakeClock(cfg, o, k, p, q, r);
    TakeWhere(cfg, o, k, p, q, r);
    TakeRoom(cfg, o, k, p, q, r);
    assert PartyOk(cfg, o, k, p);
    if Where(cfg, k, p).got + 1 < Peers(cfg) { TakeMid(cfg, o, k, p, q, r); } else { TakeLast(cfg, o, k, p, q, r); }
    forall s ensures SendsOk(cfg, r, p, s) && TakesOk(cfg, r, p, s) && QueueOk(cfg, r, p, s) {
      TakePair(cfg, o, k, p, q, r, s);
    }
  }

  lemma TakeUnread(cfg: Config, o: Course, k: Sim, p: PartyId, q: PartyId, r: Sim, s: PartyId, y: PartyId)
    requires Sound(cfg, o, k) && Lockstep(cfg, o, k) && p in cfg.parties && TakeStep(cfg, o, k, p, q, r)
      && Pair(cfg, y, s)
    ensures s in r.hist && UnreadOk(cfg, r, s, y)
  {
    hide At, Begin, Arrive, TakeStep, LinksOk, Wf, WfTime, WfLinks, WfWait, Reached, Sent, Lockstep, LinkOk, OnTable,
      Order, TakesOk, QueueOk, ClockOk, Ahead;
    PairFacts(cfg, o, k, y, s);
    PairFacts(cfg, o, k, s, y);
    TakeWhere(cfg, o, k, p, q, r);
    TakeRoom(cfg, o, k, p, q, r);
    TakeFrame(cfg, o, k, p, q, r, s, y);
    OrderBound(cfg, s, y);
    assert SendsOk(cfg, k, s, y);
    ReachedSent(cfg, k, s, y);
  }

  lemma ReachedSent(cfg: Config, k: Sim, s: PartyId, y: PartyId)
    requires LinkOk(k.sb, cfg.delay, Link(s, y))
    ensures Reached(k, s, y) <= |Sent(k, s, y)|
  {
  }

  lemma TakeLinks(cfg: Config, o: Course, k: Sim, p: PartyId, q: PartyId, r: Sim)
    requires |cfg.parties| > 1 && p in k.hist && LinksOk(cfg, o, k) && TakeStep(cfg, o, k, p, q, r)
    ensures LinksOk(cfg, o, r)
  {
    forall s, y ensures Sent(r, s, y) == Sent(k, s, y) && Reached(r, s, y) == Reached(k, s, y)
    ensures r.sb.events == k.sb.events && r.sb.sent == k.sb.sent
    {
      TakeFrame(cfg, o, k, p, q, r, s, y);
    }
    TakeFrame(cfg, o, k, p, q, r, p, q);
    hide At, Sent, TakeStep, Reached, OnTable, InTurn, InSequence;
  }

  lemma TakeKeepsStep(cfg: Config, o: Course, k: Sim, p: PartyId, q: PartyId, r: Sim)
    requires Sound(cfg, o, k) && Lockstep(cfg, o, k) && p in cfg.parties && TakeStep(cfg, o, k, p, q, r)
    ensures Lockstep(cfg, o, r)
  {
    hide At, Begin, Arrive, Wf, WfTime, WfWait, WfLinks, Plays, TakeStep, PartyOk, LinksOk, Where, UnreadOk, Sent,
      Taken, Reached, Unread;
    TakeWhere(cfg, o, k, p, q, r);
    TakeLinks(cfg, o, k, p, q, r);
    TakeSelf(cfg, o, k, p, q, r);
    forall s | s in cfg.parties ensures PartyOk(cfg, o, r, s) {
      if s != p { TakeOthers(cfg, o, k, p, q, r, s); }
    }
    forall s, y | Pair(cfg, y, s) ensures UnreadOk(cfg, r, s, y) {
      TakeUnread(cfg, o, k, p, q, r, s, y);
    }
  }

  /** An idle tick delivers `e`. */
  ghost predicate TickStep(cfg: Config, o: Course, k: Sim, e: ScheduledEvent, r: Sim) {
    Sound(cfg, o, k) && Lockstep(cfg, o, k) && Idle(k) && IsNext(k.sb, e) && r == Tick(k, e)
  }

  /** The packet that `e` delivers belongs to the round its recipient is in. */
  predicate Due(cfg: Config, k: Sim, e: ScheduledEvent) {
    Pair(cfg, e.link.sender, e.link.recipient)
    && Taken(k, e.link.sender, e.link.recipient) == Where(cfg, k, e.link.recipient).round
  }

  /** At an idle tick every party has finished its rounds or is waiting with nothing unread. */
  lemma IdleParty(cfg: Config, o: Course, k: Sim, p: PartyId, q: PartyId)
    requires Sound(cfg, o, k) && Lockstep(cfg, o, k) && Idle(k) && p in cfg.parties
    ensures Where(cfg, k, p).round == o.opens.rounds || Where(cfg, k, p).sent == Peers(cfg)
    ensures Pair(cfg, q, p) ==> Unread(k, q, p) == [] && Taken(k, q, p) == Reached(k, q, p)
  {
    hide At, WfTime, WfLinks, LinksOk, ClockOk, SendsOk, TakesOk, Ahead, Without;
    OpAt(cfg, o, k, p);
    assert PartyOk(cfg, o, k, p) && QueueOk(cfg, k, p, q);
    if p !in k.finished {
      assert Blocked(cfg, k, p) && ParkedProperly(cfg, k, p);
    }
  }

  lemma TickEvent(cfg: Config, o: Course, k: Sim, e: ScheduledEvent, r: Sim)
    requires TickStep(cfg, o, k, e, r)
    ensures var q, p := e.link.sender, e.link.recipient;
      && Pair(cfg, q, p) && Reached(k, q, p) < |Sent(k, q, p)|
      && e == EventOf(e.link, Sent(k, q, p)[Reached(k, q, p)]) && e.arrival == Arrive(cfg, o, q, p, Reached(k, q, p))
      && Unread(k, q, p) == [] && Taken(k, q, p) == Reached(k, q, p)
  {
    hide At, Wf, WfTime, WfWait, Plays, Where, PartyOk, UnreadOk, InTurn, InSequence, LinkOk, Arrive;
    assert LinkOk(k.sb, cfg.delay, e.link);
    NextOfLink(k.sb, cfg.delay, e);
    var q, p := e.link.sender, e.link.recipient;
    assert e.link == Link(q, p) && SentOn(k.sb, e.link) != [];
    assert OnTable(cfg, o, q, p, Sent(k, q, p));
    IdleParty(cfg, o, k, p, q);
  }

  lemma TickFrame(cfg: Config, o: Course, k: Sim, e: ScheduledEvent, r: Sim, s: PartyId, y: PartyId)
    requires TickStep(cfg, o, k, e, r)
    ensures r.hist == k.hist && Sent(r, s, y) == Sent(k, s, y) && Taken(r, s, y) == Taken(k, s, y)
    ensures Clock(r.sb, y) == if y == e.link.recipient then e.arrival else Clock(k.sb, y)
    ensures Clock(k.sb, y) <= e.arrival
    ensures if Link(s, y) == e.link then Reached(r, s, y) == Reached(k, s, y) + 1
      && Unread(r, s, y) == Unread(k, s, y) + [e.kind.packet]
      else Reached(r, s, y) == Reached(k, s, y) && Unread(r, s, y) == Unread(k, s, y)
    ensures r.sb.sent == k.sb.sent && r.sb.events <= k.sb.events
  {
    hide At, Wf, WfWait, WfLinks, Plays, PartyOk, UnreadOk, OnTable, InTurn, InSequence;
  }

  lemma TickOthers(cfg: Config, o: Course, k: Sim, e: ScheduledEvent, r: Sim, s: PartyId)
    requires TickStep(cfg, o, k, e, r) && s in cfg.parties && s != e.link.recipient
    ensures s in r.hist && PartyOk(cfg, o, r, s)
  {
    hide At, TickStep, PartyOk, Sent, Taken, Reached, Unread;
    TickOk(cfg, o, k, e, r, s);
    TickFrame(cfg, o, k, e, r, s, s);
    forall y ensures Taken(r, y, s) == Taken(k, y, s) && Unread(r, y, s) == Unread(k, y, s)
    ensures Reached(r, y, s) == Reached(k, y, s) && Sent(r, s, y) == Sent(k, s, y) && Clock(r.sb, s) == Clock(k.sb, s)
    ensures r.hist == k.hist
    {
      TickFrame(cfg, o, k, e, r, y, s);
      TickFrame(cfg, o, k, e, r, s, y);
    }
    PartyFrame(cfg, o, k, r, s);
  }

  lemma TickOk(cfg: Config, o: Course, k: Sim, e: ScheduledEvent, r: Sim, s: PartyId)
    requires TickStep(cfg, o, k, e, r) && s in cfg.parties
    ensures |cfg.parties| > 1 && (forall p :: p in k.hist <==> p in cfg.parties) && PartyOk(cfg, o, k, s)
  {
    hide At, Wf, WfTime, WfWait, WfLinks, PartyOk, UnreadOk, OnTable, InTurn, InSequence;
  }

  /** The recipient is collecting the round that the packet belongs to. */
  lemma TickCollecting(cfg: Config, o: Course, k: Sim, e: ScheduledEvent, r: Sim)
    requires TickStep(cfg, o, k, e, r) && Due(cfg, k, e)
    ensures Where(cfg, k, e.link.recipient).round < o.opens.rounds && Where(cfg, k, e.link.recipient).sent == Peers(cfg)
  {
    hide At, Wf, WfTime, WfLinks, WfWait, LinksOk, ClockOk, Ahead, Order, Reached, Sent, Taken, Unread, Where;
    var q, p := e.link.sender, e.link.recipient;
    TickEvent(cfg, o, k, e, r);
    IdleParty(cfg, o, k, p, q);
    assert PartyOk(cfg, o, k, q) && SendsOk(cfg, k, q, p);
  }

  lemma TickPair(cfg: Config, o: Course, k: Sim, e: ScheduledEvent, r: Sim, s: PartyId)
    requires TickStep(cfg, o, k, e, r) && Due(cfg, k, e)
    ensures var p := e.link.recipient;
      && p in r.hist && SendsOk(cfg, r, p, s) && TakesOk(cfg, r, p, s) && QueueOk(cfg, r, p, s)
  {
    hide At, TickStep, Reached, Sent, Taken, Unread, Order, ClockOk, Ahead;
    var q, p := e.link.sender, e.link.recipient;
    TickEvent(cfg, o, k, e, r);
    TickCollecting(cfg, o, k, e, r);
    TickOk(cfg, o, k, e, r, p);
    TickFrame(cfg, o, k, e, r, q, p);
    assert SendsOk(cfg, k, p, s) && TakesOk(cfg, k, p, s);
    forall y ensures r.hist == k.hist && Taken(r, y, p) == Taken(k, y, p) && Sent(r, p, y) == Sent(k, p, y)
    ensures Pair(cfg, y, p) ==> |Unread(r, y, p)| == if y == q then 1 else 0
    {
      TickFrame(cfg, o, k, e, r, y, p);
      TickFrame(cfg, o, k, e, r, p, y);
      IdleUnread(cfg, o, k, e, r, y);
    }
    assert Where(cfg, r, p) == Where(cfg, k, p);
  }

  lemma IdleUnread(cfg: Config, o: Course, k: Sim, e: ScheduledEvent, r: Sim, y: PartyId)
    requires TickStep(cfg, o, k, e, r)
    ensures Pair(cfg, y, e.link.recipient) ==> Unread(k, y, e.link.recipient) == []
  {
    hide At, Wf, WfTime, WfLinks, WfWait, LinksOk, PartyOk, UnreadOk, Plays, Unread;
    if Pair(cfg, y, e.link.recipient) { IdleParty(cfg, o, k, e.link.recipient, y); }
  }

  lemma TickClock(cfg: Config, o: Course, k: Sim, e: ScheduledEvent, r: Sim)
    requires TickStep(cfg, o, k, e, r) && Due(cfg, k, e)
    ensures e.link.recipient in r.hist && ClockOk(cfg, o, r, e.link.recipient)
  {
    hide At, TickStep, Reached, Sent, Taken, Unread, SendsOk, TakesOk, QueueOk, Ahead, Arrive, Begin;
    var q, p := e.link.sender, e.link.recipient;
    TickEvent(cfg, o, k, e, r);
    TickOk(cfg, o, k, e, r, p);
    TickFrame(cfg, o, k, e, r, q, p);
    assert e.link == Link(q, p);
    assert Where(cfg, r, p) == Where(cfg, k, p);
    assert Reached(r, q, p) > Where(cfg, k, p).round && Clock(r.sb, p) == Arrive(cfg, o, q, p, Where(cfg, k, p).round);
  }

  lemma TickSelf(cfg: Config, o: Course, k: Sim, e: ScheduledEvent, r: Sim)
    requires TickStep(cfg, o, k, e, r) && Due(cfg, k, e)
    ensures e.link.recipient in r.hist && PartyOk(cfg, o, r, e.link.recipient)
  {
    hide At, TickStep, Reached, Sent, Taken, Unread, ClockOk, SendsOk, TakesOk, QueueOk;
    var q, p := e.link.sender, e.link.recipient;
    TickClock(cfg, o, k, e, r);
    TickOk(cfg, o, k, e, r, p);
    TickFrame(cfg, o, k, e, r, q, p);
    forall y ensures r.hist == k.hist && Taken(r, y, p) == Taken(k, y, p) {
      TickFrame(cfg, o, k, e, r, y, p);
    }
    assert Ahead(cfg, r, p) == Ahead(cfg, k, p);
    forall s ensures SendsOk(cfg, r, p, s) && TakesOk(cfg, r, p, s) && QueueOk(cfg, r, p, s) {
      TickPair(cfg, o, k, e, r, s);
    }
  }

  lemma TickTurn(cfg: Config, o: Course, k: Sim, e: ScheduledEvent, r: Sim, q: PartyId, s: PartyId, p: PartyId)
    requires TickStep(cfg, o, k, e, r) && Due(cfg, k, e) && Pair(cfg, q, p) && Pair(cfg, s, p) && q != s
    ensures InTurn(cfg, o, q, s, p, Reached(r, q, p))
  {
    hide At, Wf, WfTime, WfLinks, WfWait, PartyOk, UnreadOk, Plays, Reached, Sent, Unread, Taken, Arrive, LinksOk,
      Where;
    TripleFacts(cfg, o, k, q, s, p);
    TickFrame(cfg, o, k, e, r, q, p);
    if Link(q, p) == e.link {
      TickEvent(cfg, o, k, e, r);
      var j := Reached(k, q, p);
      if j > 0 {
        TakenOf(cfg, o, k, s, p);
        TakenLess(k, s, p);
        Landing(cfg, o, k, s, p, j - 1);
      }
    }
  }

  lemma TakenOf(cfg: Config, o: Course, k: Sim, s: PartyId, p: PartyId)
    requires Sound(cfg, o, k) && Lockstep(cfg, o, k) && Pair(cfg, s, p)
    ensures Where(cfg, k, p).round <= Taken(k, s, p) <= Where(cfg, k, p).round + 1
  {
    hide At, Wf, WfTime, WfLinks, WfWait, UnreadOk, Plays, Reached, Sent, Unread, Taken, LinksOk, Where, ClockOk;
    assert PartyOk(cfg, o, k, p) && TakesOk(cfg, k, p, s);
  }

  lemma TickLinks(cfg: Config, o: Course, k: Sim, e: ScheduledEvent, r: Sim)
    requires TickStep(cfg, o, k, e, r) && Due(cfg, k, e)
    ensures LinksOk(cfg, o, r)
  {
    hide At, Wf, WfTime, WfLinks, WfWait, PartyOk, UnreadOk, Plays, Reached, Sent, Unread, Taken, Arrive, Where,
      InTurn, InSequence, OnTable, Tick;
    forall s, y ensures Sent(r, s, y) == Sent(k, s, y) && r.sb.sent == k.sb.sent && r.sb.events <= k.sb.events {
      TickFrame(cfg, o, k, e, r, s, y);
    }
    TickFrame(cfg, o, k, e, r, 0, 0);
    forall q, s, p | Pair(cfg, q, p) && Pair(cfg, s, p) && q != s ensures InTurn(cfg, o, q, s, p, Reached(r, q, p)) {
      TickTurn(cfg, o, k, e, r, q, s, p);
    }
  }

  lemma TickUnread(cfg: Config, o: Course, k: Sim, e: ScheduledEvent, r: Sim, p: PartyId, q: PartyId)
    requires TickStep(cfg, o, k, e, r) && Pair(cfg, q, p)
    ensures p in r.hist && UnreadOk(cfg, r, p, q)
  {
    hide At, Wf, WfTime, WfLinks, WfWait, Plays, Reached, Sent, Unread, Taken, LinksOk, Order, ClockOk, Tick,
      TakesOk, QueueOk, Ahead, OnTable, LinkOk;
    PairFacts(cfg, o, k, p, q);
    PairFacts(cfg, o, k, q, p);
    TickFrame(cfg, o, k, e, r, p, q);
    if e.link == Link(p, q) {
      TickEvent(cfg, o, k, e, r);
      IdleParty(cfg, o, k, p, q);
      assert PartyOk(cfg, o, k, p) && SendsOk(cfg, k, p, q);
    }
    assert Where(cfg, r, p) == Where(cfg, k, p);
  }

  /** A delivery that is due keeps the parties in step. */
  lemma TickKeepsStep(cfg: Config, o: Course, k: Sim, e: ScheduledEvent, r: Sim)
    requires TickStep(cfg, o, k, e, r) && Due(cfg, k, e)
    ensures Lockstep(cfg, o, r)
  {
    hide At, Wf, WfTime, WfLinks, WfWait, Plays, Reached, Sent, Unread, Taken, LinksOk, PartyOk, UnreadOk, Where;
    TickLinks(cfg, o, k, e, r);
    forall s | s in cfg.parties ensures PartyOk(cfg, o, r, s) {
      if s == e.link.recipient { TickSelf(cfg, o, k, e, r); } else { TickOthers(cfg, o, k, e, r, s); }
    }
    forall p, q | Pair(cfg, q, p) ensures UnreadOk(cfg, r, p, q) {
      TickUnread(cfg, o, k, e, r, p, q);
    }
  }
}
