/**
 * The switchboard and its receive futures as objects. Every method is proved to change the
 * switchboard exactly as the function of the same purpose in SwitchboardSpec.dfy says.
 */
module Switchboard {
  import opened Wrappers
  import opened SimTypes
  import opened SwitchboardSpec
  import opened Kernel

  class Switchboard {
    var queues: map<Link, seq<Packet>>
    var parked: map<Link, PartyId>
    var events: set<ScheduledEvent>
    var clocks: map<PartyId, Time>
    var last: map<Link, Time>
    var nextSeq: nat
    var traces: map<PartyId, seq<TraceEvent>>
    const delay: (Link, nat) -> Time
    // What was sent and received so far, for the statements about runs.
    ghost var sent: map<Link, seq<SentRecord>>
    ghost var got: map<Link, seq<GotRecord>>

    /** The state of this object as a value. */
    ghost function View(): State
      reads this
    {
      State(queues, parked, events, clocks, last, nextSeq, traces, sent, got)
    }

    constructor (delay: (Link, nat) -> Time)
      ensures View() == EMPTY && this.delay == delay
    {
      queues, parked, events, clocks, last, nextSeq, traces := map[], map[], {}, map[], map[], 0, map[];
      this.delay := delay;
      sent, got := map[], map[];
    }

    function ClockOf(party: PartyId): (t: Time)
      reads this
      ensures t == Clock(View(), party)
    {
      if party in clocks then clocks[party] else 0
    }

    function QueueOf(link: Link): (q: seq<Packet>)
      reads this
      ensures q == Queue(View(), link)
    {
      if link in queues then queues[link] else []
    }

    method NextSeq() returns (number: nat)
      modifies this`nextSeq
      ensures number == old(nextSeq) && nextSeq == old(nextSeq) + 1
    {
      number := nextSeq;
      nextSeq := nextSeq + 1;
    }

    method RecordEvent(party: PartyId, event: TraceEvent)
      modifies this`traces
      ensures View() == SwitchboardSpec.RecordEvent(old(View()), party, event)
    {
      var trace := if party in traces then traces[party] else [];
      traces := traces[party := trace + [event]];
    }

    method Send(from: PartyId, to: PartyId, packet: Packet)
      modifies this
      ensures View() == SendPacket(old(View()), delay, Link(from, to), packet)
    {
      ghost var s := View();
      var link := Link(from, to);
      var now := ClockOf(from);
      RecordEvent(from, SendData(now, link, packet.size));
      var arrival := now + delay(link, packet.size);
      if link in last { arrival := Max(arrival, last[link]); }
      assert arrival == ArrivalOf(s, delay, link, packet);
      Enqueue(link, packet, now, arrival);
    }

    /** Places the delivery on the heap. */
    method Enqueue(link: Link, packet: Packet, ghost now: Time, arrival: Time)
      modifies this
      ensures View() == old(View()).(
        last := old(last)[link := arrival], nextSeq := old(nextSeq) + 1,
        events := old(events) + {ScheduledEvent(arrival, old(nextSeq), link, Delivery(packet))},
        sent := old(sent)[link := SentOn(old(View()), link) + [SentRecord(packet, now, arrival, old(nextSeq))]])
    {
      last := last[link := arrival];
      var number := NextSeq();
      events := events + {ScheduledEvent(arrival, number, link, Delivery(packet))};
      sent := sent[link := SentOn(View(), link) + [SentRecord(packet, now, arrival, number)]];
    }

    method ScheduleTimer(link: Link, deadline: Time)
      modifies this
      ensures View() == SwitchboardSpec.ScheduleTimer(old(View()), link, deadline)
    {
      var number := NextSeq();
      events := events + {ScheduledEvent(deadline, number, link, Timer)};
    }

    /** Delivers the next event, if there is one, and says whom to wake; otherwise nothing happens. */
    method DeliverNext() returns (progressed: bool, woken: Option<PartyId>)
      requires WfHeap(View())
      modifies this
      ensures progressed <==> old(events) != {}
      ensures !progressed ==> View() == old(View()) && woken.None?
      ensures progressed ==>
        var s := old(View()); var e := NextEvent(s);
        View() == Deliver(s, e) && woken == if e.link in s.parked then Some(s.parked[e.link]) else None
    {
      if events == {} { return false, None; }
      ghost var s := View();
      ghost var e := NextEvent(s);
      assert e in events && forall f :: f in events ==> e == f || Before(e, f);
      var event :| event in events && forall f :: f in events ==> event == f || Before(event, f);
      assert event == e || (Before(event, e) && Before(e, event));
      events := events - {event};
      var recipient := event.link.recipient;
      clocks := clocks[recipient := Max(ClockOf(recipient), event.arrival)];
      if event.kind.Delivery? {
        queues := queues[event.link := QueueOf(event.link) + [event.kind.packet]];
      }
      woken := None;
      if event.link in parked { woken := Some(parked[event.link]); }
      parked := parked - {event.link};
      progressed := true;
    }

    method TryRecv(link: Link) returns (packet: Option<Packet>)
      modifies this
      ensures old(QueueOf(link)) == [] ==> packet.None? && View() == old(View())
      ensures old(QueueOf(link)) != [] ==>
        packet == Some(old(QueueOf(link))[0])
        && View() == TakePacket(old(View()), link)
    {
      var queue := QueueOf(link);
      if queue == [] { return None; }
      queues := queues[link := queue[1..]];
      var now := ClockOf(link.recipient);
      RecordEvent(link.recipient, ReceiveData(now, link, queue[0].size));
      got := got[link := GotOn(View(), link) + [GotRecord(queue[0], now)]];
      packet := Some(queue[0]);
    }

    /** The lowest sender with a queued packet. */
    method ReadySender(local: PartyId, senders: seq<PartyId>) returns (ready: Option<PartyId>)
      ensures ready == MinReady(View(), local, senders)
    {
      ready := None;
      var i := |senders|;
      assert senders[i..] == [];
      while i > 0
        invariant i <= |senders| && ready == MinReady(View(), local, senders[i..])
      {
        i := i - 1;
        assert senders[i..] == [senders[i]] + senders[i + 1..];
        if QueueOf(Link(senders[i], local)) != [] && (ready.None? || senders[i] <= ready.value) {
          ready := Some(senders[i]);
        }
      }
      assert senders[0..] == senders;
    }

    method Unpark(local: PartyId, senders: seq<PartyId>)
      modifies this`parked
      ensures View() == UnparkAny(old(View()), local, senders)
    {
      var i := 0;
      while i < |senders|
        invariant i <= |senders| && parked == old(parked) - LinksTo(local, senders[..i])
      {
        assert senders[..i + 1] == senders[..i] + [senders[i]];
        parked := parked - {Link(senders[i], local)};
        i := i + 1;
      }
      assert senders[..|senders|] == senders;
    }

    method Park(link: Link, waker: PartyId)
      modifies this`parked
      ensures View() == old(View()).(parked := old(parked)[link := waker])
    {
      parked := parked[link := waker];
    }

    method ParkOnAll(local: PartyId, senders: seq<PartyId>)
      modifies this`parked
      ensures View() == ParkAny(old(View()), local, senders)
    {
      var i := 0;
      while i < |senders|
        invariant i <= |senders|
        invariant parked == old(parked) + map l | l in LinksTo(local, senders[..i]) :: local
      {
        assert senders[..i + 1] == senders[..i] + [senders[i]];
        parked := parked[Link(senders[i], local) := local];
        i := i + 1;
      }
      assert senders[..|senders|] == senders;
    }
  }

  /** The future of a receive from one party. */
  class Recv {
    const link: Link

    constructor (sender: PartyId, recipient: PartyId)
      ensures link == Link(sender, recipient)
    {
      link := Link(sender, recipient);
    }

    method Poll(sb: Switchboard) returns (result: Option<Res>)
      modifies sb
      ensures (sb.View(), result) == PollRecv(old(sb.View()), link)
    {
      var packet := sb.TryRecv(link);
      if packet.Some? { return Some(Got(link.sender, packet.value)); }
      sb.Park(link, link.recipient);
      result := None;
    }
  }

  /** The future of a receive from anyone. */
  class RecvAny {
    const local: PartyId
    const senders: seq<PartyId>

    constructor (local: PartyId, senders: seq<PartyId>)
      ensures this.local == local && this.senders == senders
    {
      this.local, this.senders := local, senders;
    }

    method Poll(sb: Switchboard) returns (result: Option<Res>)
      modifies sb
      ensures (sb.View(), result) == PollReceive(old(sb.View()), local, senders, None, None)
    {
      var ready := sb.ReadySender(local, senders);
      if ready.None? {
        sb.ParkOnAll(local, senders);
        return None;
      }
      sb.Unpark(local, senders);
      var packet := sb.TryRecv(Link(ready.value, local));
      result := Some(Got(ready.value, packet.value));
    }
  }

  /** The future of a receive from one party under a deadline, which the first poll fixes. */
  class RecvTimeout {
    const link: Link
    const timeout: Time
    var deadline: Option<Time>

    constructor (sender: PartyId, recipient: PartyId, timeout: Time)
      ensures link == Link(sender, recipient) && this.timeout == timeout && deadline.None?
    {
      link, this.timeout, deadline := Link(sender, recipient), timeout, None;
    }

    /** The future as it was left by earlier polls. */
    constructor Suspended(sender: PartyId, recipient: PartyId, timeout: Time, deadline: Option<Time>)
      ensures link == Link(sender, recipient) && this.timeout == timeout && this.deadline == deadline
    {
      link, this.timeout, this.deadline := Link(sender, recipient), timeout, deadline;
    }

    method Poll(sb: Switchboard) returns (result: Option<Res>)
      modifies sb, this
      ensures deadline == Some(if old(deadline).Some? then old(deadline).value
        else old(sb.ClockOf(link.recipient)) + timeout)
      ensures var armed := if old(deadline).Some? then old(sb.View())
                           else SwitchboardSpec.ScheduleTimer(old(sb.View()), link, deadline.value);
        (sb.View(), result) == PollRecvTimeout(armed, link, deadline.value)
    {
      if deadline.None? {
        deadline := Some(sb.ClockOf(link.recipient) + timeout);
        sb.ScheduleTimer(link, deadline.value);
      }
      var now := sb.ClockOf(link.recipient);
      var packet := sb.TryRecv(link);
      if packet.Some? { return Some(Got(link.sender, packet.value)); }
      if now >= deadline.value { return Some(TimedOut(Some(link.sender))); }
      sb.Park(link, link.recipient);
      result := None;
    }
  }

  /** The future of a receive from anyone under a deadline. */
  class RecvAnyTimeout {
    const local: PartyId
    const senders: seq<PartyId>
    const timeout: Time
    var deadline: Option<Time>

    constructor (local: PartyId, senders: seq<PartyId>, timeout: Time)
      ensures this.local == local && this.senders == senders && this.timeout == timeout && deadline.None?
    {
      this.local, this.senders, this.timeout, deadline := local, senders, timeout, None;
    }

    /** The future as it was left by earlier polls. */
    constructor Suspended(local: PartyId, senders: seq<PartyId>, timeout: Time, deadline: Option<Time>)
      ensures this.local == local && this.senders == senders && this.timeout == timeout && this.deadline == deadline
    {
      this.local, this.senders, this.timeout, this.deadline := local, senders, timeout, deadline;
    }

    method Poll(sb: Switchboard) returns (result: Option<Res>)
      modifies sb, this
      ensures deadline == Some(if old(deadline).Some? then old(deadline).value else old(sb.ClockOf(local)) + timeout)
      ensures var armed := if old(deadline).Some? || senders == [] then old(sb.View())
                           else SwitchboardSpec.ScheduleTimer(old(sb.View()), Link(senders[0], local), deadline.value);
        (sb.View(), result) == PollReceive(armed, local, senders, deadline, None)
    {
      if deadline.None? {
        deadline := Some(sb.ClockOf(local) + timeout);
        if senders != [] { sb.ScheduleTimer(Link(senders[0], local), deadline.value); }
      }
      var ready := sb.ReadySender(local, senders);
      if ready.None? && sb.ClockOf(local) < deadline.value {
        sb.ParkOnAll(local, senders);
        return None;
      }
      sb.Unpark(local, senders);
      if ready.None? { return Some(TimedOut(None)); }
      var packet := sb.TryRecv(Link(ready.value, local));
      result := Some(Got(ready.value, packet.value));
    }
  }
}
