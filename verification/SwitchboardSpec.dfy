/**
 * The switchboard as a value: its abstract state and what each of its operations does to it.
 * The class in Switchboard.dfy is proved to follow these functions.
 */
module SwitchboardSpec {
  import opened Wrappers
  import opened SimTypes

  /** A packet as it was accepted by `send`: when, and for which instant and heap position. */
  datatype SentRecord = SentRecord(packet: Packet, at: Time, arrival: Time, seqNo: nat)

  /** A packet as it was handed to its recipient, with the stamp put on it. */
  datatype GotRecord = GotRecord(packet: Packet, at: Time)

  /**
   * The state of the switchboard. `sent` and `got` are not part of the program: they remember what
   * was sent and received on every link, for the statements about whole runs.
   */
  datatype State = State(
    queues: map<Link, seq<Packet>>,
    parked: map<Link, PartyId>,
    events: set<ScheduledEvent>,
    clocks: map<PartyId, Time>,
    last: map<Link, Time>,
    nextSeq: nat,
    traces: map<PartyId, seq<TraceEvent>>,
    sent: map<Link, seq<SentRecord>>,
    got: map<Link, seq<GotRecord>>)

  const EMPTY := State(map[], map[], {}, map[], map[], 0, map[], map[], map[])

  function Queue(s: State, l: Link): seq<Packet> { if l in s.queues then s.queues[l] else [] }

  function Clock(s: State, p: PartyId): Time { if p in s.clocks then s.clocks[p] else 0 }

  function Trace(s: State, p: PartyId): seq<TraceEvent> { if p in s.traces then s.traces[p] else [] }

  function SentOn(s: State, l: Link): seq<SentRecord> { if l in s.sent then s.sent[l] else [] }

  function GotOn(s: State, l: Link): seq<GotRecord> { if l in s.got then s.got[l] else [] }

  function RecordEvent(s: State, p: PartyId, event: TraceEvent): State {
    s.(traces := s.traces[p := Trace(s, p) + [event]])
  }

  function RecordMark(s: State, p: PartyId, mark: Mark): State {
    RecordEvent(s, p, Marked(Clock(s, p), mark))
  }

  /** The instant at which a packet sent now arrives: never before an earlier one on the link. */
  function ArrivalOf(s: State, delay: (Link, nat) -> Time, link: Link, packet: Packet): Time {
    var arrival := Clock(s, link.sender) + delay(link, packet.size);
    if link in s.last then Max(arrival, s.last[link]) else arrival
  }

  function SendPacket(s: State, delay: (Link, nat) -> Time, link: Link, packet: Packet): State {
    var now := Clock(s, link.sender);
    var arrival := ArrivalOf(s, delay, link, packet);
    RecordEvent(s, link.sender, SendData(now, link, packet.size)).(
      last := s.last[link := arrival],
      nextSeq := s.nextSeq + 1,
      events := s.events + {ScheduledEvent(arrival, s.nextSeq, link, Delivery(packet))},
      sent := s.sent[link := SentOn(s, link) + [SentRecord(packet, now, arrival, s.nextSeq)]])
  }

  function ScheduleTimer(s: State, link: Link, deadline: Time): State {
    s.(nextSeq := s.nextSeq + 1, events := s.events + {ScheduledEvent(deadline, s.nextSeq, link, Timer)})
  }

  /** `e` is the top of the heap. */
  ghost predicate IsNext(s: State, e: ScheduledEvent) {
    e in s.events && forall f :: f in s.events ==> e == f || Before(e, f)
  }

  /** Delivering `e`: the recipient's clock moves up to it, its packet is queued, its waker is taken. */
  function Deliver(s: State, e: ScheduledEvent): State {
    var recipient := e.link.recipient;
    s.(events := s.events - {e},
       clocks := s.clocks[recipient := Max(Clock(s, recipient), e.arrival)],
       queues := if e.kind.Delivery? then s.queues[e.link := Queue(s, e.link) + [e.kind.packet]] else s.queues,
       parked := s.parked - {e.link})
  }

  /** Takes the oldest packet of a link and stamps its reception. */
  function TakePacket(s: State, l: Link): State
    requires Queue(s, l) != []
  {
    var packet := Queue(s, l)[0];
    var now := Clock(s, l.recipient);
    RecordEvent(s, l.recipient, ReceiveData(now, l, packet.size)).(
      queues := s.queues[l := Queue(s, l)[1..]],
      got := s.got[l := GotOn(s, l) + [GotRecord(packet, now)]])
  }

  function LinksTo(local: PartyId, senders: seq<PartyId>): set<Link> {
    set q | q in senders :: Link(q, local)
  }

  function ParkAny(s: State, local: PartyId, senders: seq<PartyId>): State {
    s.(parked := s.parked + map l | l in LinksTo(local, senders) :: local)
  }

  function UnparkAny(s: State, local: PartyId, senders: seq<PartyId>): State {
    s.(parked := s.parked - LinksTo(local, senders))
  }

  /** The lowest sender that has a packet queued for `local`. */
  function MinReady(s: State, local: PartyId, senders: seq<PartyId>): (r: Option<PartyId>)
    ensures r.Some? ==> r.value in senders && Queue(s, Link(r.value, local)) != []
    ensures r.Some? ==> forall q :: q in senders && Queue(s, Link(q, local)) != [] ==> r.value <= q
    ensures r.None? ==> forall q :: q in senders ==> Queue(s, Link(q, local)) == []
  {
    if senders == [] then None
    else
      var rest := MinReady(s, local, senders[1..]);
      if Queue(s, Link(senders[0], local)) != [] && (rest.None? || senders[0] <= rest.value)
      then Some(senders[0]) else rest
  }

  /**
   * One poll of a receive by `local` over the links from `senders`, with an optional deadline.
   * Resolving with a packet or a timeout drops every waker parked on those links; otherwise the
   * party is parked on all of them. The four receive futures all come down to this.
   */
  function PollReceive(s: State, local: PartyId, senders: seq<PartyId>, deadline: Option<Time>,
      blame: Option<PartyId>): (State, Option<Res>)
  {
    var ready := MinReady(s, local, senders);
    if ready.Some? then
      var l := Link(ready.value, local);
      (TakePacket(UnparkAny(s, local, senders), l), Some(Got(ready.value, Queue(s, l)[0])))
    else if deadline.Some? && Clock(s, local) >= deadline.value then
      (UnparkAny(s, local, senders), Some(TimedOut(blame)))
    else
      (ParkAny(s, local, senders), None)
  }

  /** `Recv::poll`: a success leaves the parked wakers alone. */
  function PollRecv(s: State, link: Link): (State, Option<Res>) {
    if Queue(s, link) != [] then (TakePacket(s, link), Some(Got(link.sender, Queue(s, link)[0])))
    else (s.(parked := s.parked[link := link.recipient]), None)
  }

  /** `RecvTimeout::poll` once its deadline is set. */
  function PollRecvTimeout(s: State, link: Link, deadline: Time): (State, Option<Res>) {
    if Queue(s, link) != [] then (TakePacket(s, link), Some(Got(link.sender, Queue(s, link)[0])))
    else if Clock(s, link.recipient) >= deadline then (s, Some(TimedOut(Some(link.sender))))
    else (s.(parked := s.parked[link := link.recipient]), None)
  }

  lemma SingleLinkWakers(s: State, link: Link)
    requires link !in s.parked
    ensures UnparkAny(s, link.recipient, [link.sender]) == s
    ensures ParkAny(s, link.recipient, [link.sender]) == s.(parked := s.parked[link := link.recipient])
  {
    var links := LinksTo(link.recipient, [link.sender]);
    assert links == {link};
    assert s.parked - links == s.parked;
    assert s.parked + (map l | l in links :: link.recipient) == s.parked[link := link.recipient];
  }

  /** A single-link poll is the general poll, as long as no waker is parked on the link. */
  lemma SingleLinkPoll(s: State, link: Link, deadline: Time)
    requires link !in s.parked
    ensures PollRecv(s, link) == PollReceive(s, link.recipient, [link.sender], None, None)
    ensures PollRecvTimeout(s, link, deadline) ==
            PollReceive(s, link.recipient, [link.sender], Some(deadline), Some(link.sender))
  {
    SingleLinkWakers(s, link);
    var ready := MinReady(s, link.recipient, [link.sender]);
    assert Queue(s, link) != [] ==> ready == Some(link.sender);
  }
}
