/** Per-link FIFO, conservation of packets, and the stamps of receptions, in every run. */
module Links {
  import opened Wrappers
  import opened SimTypes
  import opened SwitchboardSpec
  import opened Kernel
  import opened Causality

  /** The delivery event that `send` scheduled for this packet. */
  function EventOf(l: Link, r: SentRecord): ScheduledEvent {
    ScheduledEvent(r.arrival, r.seqNo, l, Delivery(r.packet))
  }

  /** How many packets of the link have reached their recipient's queue. */
  function Delivered(s: State, l: Link): nat { |GotOn(s, l)| + |Queue(s, l)| }

  /** The j-th packet of the link was scheduled after the i-th in heap order. */
  predicate InOrder(sent: seq<SentRecord>, i: nat, j: nat)
    requires i < |sent| && j < |sent|
  {
    sent[i].arrival <= sent[j].arrival && sent[i].seqNo < sent[j].seqNo
  }

  /** What was sent is in the order of the heap, and no sooner than its link allows. */
  ghost predicate SentInOrder(s: State, delay: (Link, nat) -> Time, l: Link) {
    var sent := SentOn(s, l);
    && (forall i :: 0 <= i < |sent| ==>
          sent[i].seqNo < s.nextSeq && sent[i].at + delay(l, sent[i].packet.size) <= sent[i].arrival)
    && (forall i, j {:trigger InOrder(sent, i, j)} :: 0 <= i < j < |sent| ==> InOrder(sent, i, j))
    && (l in s.last <==> |sent| > 0)
    && (|sent| > 0 ==> s.last[l] == sent[|sent| - 1].arrival)
  }

  /** The event is the delivery of one of the packets from position `d` on. */
  ghost predicate Flies(l: Link, sent: seq<SentRecord>, d: nat, e: ScheduledEvent) {
    exists i :: d <= i < |sent| && e == EventOf(l, sent[i])
  }

  /** The packets sent that have left the heap were received first and are queued next, in order. */
  ghost predicate Landed(s: State, l: Link) {
    var sent, got, queue := SentOn(s, l), GotOn(s, l), Queue(s, l);
    && |got| + |queue| <= |sent|
    && (forall i :: 0 <= i < |got| ==> got[i].packet == sent[i].packet && sent[i].arrival <= got[i].at)
    && (forall i :: 0 <= i < |queue| ==> queue[i] == sent[|got| + i].packet)
    && (forall i :: 0 <= i < |got| + |queue| ==> sent[i].arrival <= Clock(s, l.recipient))
  }

  /** The deliveries of the link on the heap are exactly those of the packets from position `d` on. */
  ghost predicate Airborne(events: set<ScheduledEvent>, l: Link, sent: seq<SentRecord>, d: nat) {
    && (forall i {:trigger EventOf(l, sent[i])} :: d <= i < |sent| ==> EventOf(l, sent[i]) in events)
    && (forall e {:trigger Flies(l, sent, d, e)} ::
          e in events && e.link == l && e.kind.Delivery? ==> Flies(l, sent, d, e))
  }

  /** What was sent was received, then is queued, then is in flight. */
  ghost predicate Conserved(s: State, l: Link) {
    Landed(s, l) && Airborne(s.events, l, SentOn(s, l), Delivered(s, l))
  }

  ghost predicate LinkOk(s: State, delay: (Link, nat) -> Time, l: Link) {
    SentInOrder(s, delay, l) && Conserved(s, l)
  }

  ghost predicate WfLinks(s: State, delay: (Link, nat) -> Time) {
    forall l :: LinkOk(s, delay, l)
  }

  /** `t` differs from `s` in nothing that concerns the link. */
  ghost predicate SameLink(s: State, t: State, l: Link) {
    && SentOn(t, l) == SentOn(s, l) && GotOn(t, l) == GotOn(s, l) && Queue(t, l) == Queue(s, l)
    && (l in s.last <==> l in t.last) && (l in s.last ==> s.last[l] == t.last[l])
    && s.nextSeq <= t.nextSeq && Clock(s, l.recipient) <= Clock(t, l.recipient)
    && (forall e: ScheduledEvent :: e.link == l && e.kind.Delivery? ==> (e in s.events <==> e in t.events))
  }

  lemma SameLinkOk(s: State, t: State, delay: (Link, nat) -> Time, l: Link)
    requires LinkOk(s, delay, l) && SameLink(s, t, l)
    ensures LinkOk(t, delay, l)
  {
    assert SentInOrder(t, delay, l);
  }

  lemma SendKeepsOrder(s: State, delay: (Link, nat) -> Time, l: Link, packet: Packet)
    requires SentInOrder(s, delay, l)
    ensures SentInOrder(SendPacket(s, delay, l, packet), delay, l)
  {
    var t := SendPacket(s, delay, l, packet);
    var before, after := SentOn(s, l), SentOn(t, l);
    assert after == before + [after[|before|]];
    forall i, j | 0 <= i < j < |after| ensures InOrder(after, i, j) {
      if j < |before| {
        assert InOrder(before, i, j);
      } else if i < |before| - 1 {
        assert InOrder(before, i, |before| - 1);
      }
    }
  }

  lemma SendAirborne(events: set<ScheduledEvent>, l: Link, sent: seq<SentRecord>, r: SentRecord, d: nat)
    requires Airborne(events, l, sent, d) && d <= |sent|
    ensures Airborne(events + {EventOf(l, r)}, l, sent + [r], d)
  {
    var after := sent + [r];
    forall e | e in events + {EventOf(l, r)} && e.link == l && e.kind.Delivery? ensures Flies(l, after, d, e) {
      if e in events {
        assert Flies(l, sent, d, e);
        var i :| d <= i < |sent| && e == EventOf(l, sent[i]);
        assert after[i] == sent[i];
      } else {
        assert e == EventOf(l, after[|sent|]);
      }
    }
    forall i | d <= i < |after| ensures EventOf(l, after[i]) in events + {EventOf(l, r)} {
      if i < |sent| { assert EventOf(l, sent[i]) in events; }
    }
  }

  lemma SendOnLink(s: State, delay: (Link, nat) -> Time, l: Link, packet: Packet)
    requires LinkOk(s, delay, l)
    ensures LinkOk(SendPacket(s, delay, l, packet), delay, l)
  {
    hide SentInOrder, Airborne;
    SendKeepsOrder(s, delay, l, packet);
    var t := SendPacket(s, delay, l, packet);
    var before, after := SentOn(s, l), SentOn(t, l);
    var r := after[|before|];
    assert after == before + [r];
    assert t.events == s.events + {EventOf(l, r)};
    SendAirborne(s.events, l, before, r, Delivered(s, l));
    assert GotOn(t, l) == GotOn(s, l) && Queue(t, l) == Queue(s, l) && Clock(t, l.recipient) == Clock(s, l.recipient);
    assert forall i :: 0 <= i < |before| ==> after[i] == before[i];
    assert Landed(t, l);
  }

  lemma SendKeepsLinks(s: State, delay: (Link, nat) -> Time, m: Link, packet: Packet)
    requires WfLinks(s, delay)
    ensures WfLinks(SendPacket(s, delay, m, packet), delay)
  {
    hide LinkOk;
    var t := SendPacket(s, delay, m, packet);
    forall l ensures LinkOk(t, delay, l) {
      assert LinkOk(s, delay, l);
      if l == m {
        SendOnLink(s, delay, m, packet);
      } else {
        SameLinkOk(s, t, delay, l);
      }
    }
  }

  lemma TakeOnLink(s: State, delay: (Link, nat) -> Time, l: Link)
    requires LinkOk(s, delay, l) && Queue(s, l) != []
    ensures LinkOk(TakePacket(s, l), delay, l)
  {
    hide Airborne;
    var t := TakePacket(s, l);
    var sent, got, queue := SentOn(s, l), GotOn(s, l), Queue(s, l);
    var clock := Clock(s, l.recipient);
    assert SentOn(t, l) == sent && Clock(t, l.recipient) == clock && t.events == s.events;
    assert GotOn(t, l) == got + [GotRecord(queue[0], clock)] && Queue(t, l) == queue[1..];
    assert queue[0] == sent[|got| + 0].packet;
    assert SentInOrder(t, delay, l);
    assert Delivered(t, l) == Delivered(s, l);
    assert Landed(t, l);
  }

  lemma TakeKeepsLinks(s: State, delay: (Link, nat) -> Time, m: Link)
    requires WfLinks(s, delay) && Queue(s, m) != []
    ensures WfLinks(TakePacket(s, m), delay)
  {
    hide LinkOk;
    var t := TakePacket(s, m);
    forall l ensures LinkOk(t, delay, l) {
      assert LinkOk(s, delay, l);
      if l == m {
        TakeOnLink(s, delay, m);
      } else {
        SameLinkOk(s, t, delay, l);
      }
    }
  }

  /** The next event of a link is its oldest packet in flight. */
  lemma NextOfLink(s: State, delay: (Link, nat) -> Time, e: ScheduledEvent)
    requires LinkOk(s, delay, e.link) && IsNext(s, e) && e.kind.Delivery?
    ensures Delivered(s, e.link) < |SentOn(s, e.link)|
    ensures e == EventOf(e.link, SentOn(s, e.link)[Delivered(s, e.link)])
  {
    hide Landed;
    var sent, d := SentOn(s, e.link), Delivered(s, e.link);
    assert Flies(e.link, sent, d, e);
    var i :| d <= i < |sent| && e == EventOf(e.link, sent[i]);
    assert EventOf(e.link, sent[d]) in s.events;
    if i != d { assert InOrder(sent, d, i); }
  }

  /** Once the oldest packet in flight has left the heap, the rest of the flight is still there. */
  lemma DeliverAirborne(s: State, delay: (Link, nat) -> Time, e: ScheduledEvent)
    requires LinkOk(s, delay, e.link) && IsNext(s, e) && e.kind.Delivery?
    ensures Airborne(s.events - {e}, e.link, SentOn(s, e.link), Delivered(s, e.link) + 1)
  {
    hide Landed;
    NextOfLink(s, delay, e);
    var l, sent, d := e.link, SentOn(s, e.link), Delivered(s, e.link);
    forall f | f in s.events - {e} && f.link == l && f.kind.Delivery? ensures Flies(l, sent, d + 1, f) {
      assert Flies(l, sent, d, f);
      var j :| d <= j < |sent| && f == EventOf(l, sent[j]);
      assert j != d;
    }
    forall i | d + 1 <= i < |sent| ensures EventOf(l, sent[i]) in s.events - {e} {
      assert EventOf(l, sent[i]) in s.events && InOrder(sent, d, i);
    }
  }

  lemma DeliverOnLink(s: State, delay: (Link, nat) -> Time, e: ScheduledEvent)
    requires LinkOk(s, delay, e.link) && IsNext(s, e) && e.kind.Delivery?
    ensures LinkOk(Deliver(s, e), delay, e.link)
  {
    hide Airborne;
    var l, t := e.link, Deliver(s, e);
    NextOfLink(s, delay, e);
    DeliverAirborne(s, delay, e);
    assert Queue(t, l) == Queue(s, l) + [e.kind.packet];
    assert Clock(s, l.recipient) <= Clock(t, l.recipient) && e.arrival <= Clock(t, l.recipient);
    assert SentInOrder(t, delay, l);
    assert Landed(t, l);
  }

  lemma DeliverKeepsLinks(s: State, delay: (Link, nat) -> Time, e: ScheduledEvent)
    requires WfLinks(s, delay) && WfHeap(s) && IsNext(s, e)
    ensures WfLinks(Deliver(s, e), delay)
  {
    hide LinkOk;
    var t := Deliver(s, e);
    forall l ensures LinkOk(t, delay, l) {
      assert LinkOk(s, delay, l);
      if l == e.link && e.kind.Delivery? {
        DeliverOnLink(s, delay, e);
      } else {
        assert forall f: ScheduledEvent :: f.link == l && f.kind.Delivery? ==> f != e;
        SameLinkOk(s, t, delay, l);
      }
    }
  }

  lemma FlightIsPending(s: State, delay: (Link, nat) -> Time, l: Link)
    requires LinkOk(s, delay, l) && Delivered(s, l) < |SentOn(s, l)|
    ensures s.events != {}
  {
    assert EventOf(l, SentOn(s, l)[Delivered(s, l)]) in s.events;
  }

  /** With an empty heap, everything sent has reached its recipient's queue. */
  lemma NothingInFlight(s: State, delay: (Link, nat) -> Time, l: Link)
    requires WfLinks(s, delay) && s.events == {}
    ensures Delivered(s, l) == |SentOn(s, l)|
  {
    assert LinkOk(s, delay, l);
    if Delivered(s, l) < |SentOn(s, l)| { FlightIsPending(s, delay, l); }
  }

  lemma SameLinks(s: State, t: State, delay: (Link, nat) -> Time)
    requires WfLinks(s, delay)
    requires t.sent == s.sent && t.got == s.got && t.queues == s.queues && t.last == s.last && t.clocks == s.clocks
    requires s.nextSeq <= t.nextSeq
    requires forall e: ScheduledEvent :: e.kind.Delivery? ==> (e in s.events <==> e in t.events)
    ensures WfLinks(t, delay)
  {
    hide LinkOk;
    forall l ensures LinkOk(t, delay, l) {
      assert LinkOk(s, delay, l);
      SameLinkOk(s, t, delay, l);
    }
  }

  lemma ReceiveKeepsLinks(cfg: Config, k: Sim, p: PartyId)
    requires Wf(cfg, k) && WfLinks(k.sb, cfg.delay) && k.cur == Some(p) && IsReceive(OpOf(cfg, k, p))
    ensures WfLinks(StepTask(cfg, k, p).sb, cfg.delay)
  {
    hide LinkOk, TakePacket, WfHeap, WfWakers, MinReady;
    OneReceive(cfg, k, p);
    var s, t := Armed(cfg, k, p).sb, StepTask(cfg, k, p).sb;
    var senders := Senders(cfg, OpOf(cfg, k, p));
    var ready := MinReady(s, p, senders);
    if ready.Some? {
      var u := UnparkAny(s, p, senders);
      var l := Link(ready.value, p);
      SameLinks(k.sb, u, cfg.delay);
      assert Queue(u, l) == Queue(s, l);
      TakeKeepsLinks(u, cfg.delay, l);
      assert t == TakePacket(u, l);
    } else {
      SameLinks(k.sb, t, cfg.delay);
    }
  }

  lemma StepKeepsLinks(cfg: Config, k: Sim)
    requires Wf(cfg, k) && WfLinks(k.sb, cfg.delay)
    ensures WfLinks(Step(cfg, k).sb, cfg.delay)
  {
    if Halted(cfg, k) {
    } else if k.cur.Some? {
      var p := k.cur.value;
      if IsReceive(OpOf(cfg, k, p)) {
        ReceiveKeepsLinks(cfg, k, p);
      } else if OpOf(cfg, k, p).Send? {
        SendKeepsLinks(k.sb, cfg.delay, Link(p, OpOf(cfg, k, p).to), OpOf(cfg, k, p).packet);
      } else {
        SameLinks(k.sb, StepTask(cfg, k, p).sb, cfg.delay);
      }
    } else if k.ready == [] {
      DeliverKeepsLinks(k.sb, cfg.delay, NextEvent(k.sb));
    }
  }

  lemma NoLinksYet(cfg: Config)
    ensures WfLinks(Run(cfg, 0).sb, cfg.delay)
  {
  }

  lemma {:induction false} LinksAt(cfg: Config, n: nat)
    requires ValidConfig(cfg)
    ensures WfLinks(Run(cfg, n).sb, cfg.delay)
  {
    hide Run, Step, Wf, WfLinks;
    if n == 0 {
      NoLinksYet(cfg);
    } else {
      LinksAt(cfg, n - 1);
      RunStep(cfg, n);
      StepKeepsLinks(cfg, Run(cfg, n - 1));
    }
  }

  /** The packets of the link that are still on the heap, in the order in which they will arrive. */
  ghost function InFlight(s: State, l: Link): seq<SentRecord>
    requires Delivered(s, l) <= |SentOn(s, l)|
  {
    SentOn(s, l)[Delivered(s, l)..]
  }

  ghost predicate FlightOnHeap(s: State, l: Link, flight: seq<SentRecord>) {
    && (forall e {:trigger e in s.events} :: e in s.events && e.link == l && e.kind.Delivery? ==>
      Flies(l, flight, 0, e))
    && (forall i {:trigger EventOf(l, flight[i])} :: 0 <= i < |flight| ==> EventOf(l, flight[i]) in s.events)
    && (forall i, j {:trigger InOrder(flight, i, j)} :: 0 <= i < j < |flight| ==> InOrder(flight, i, j))
  }

  lemma FlightIsOnHeap(s: State, delay: (Link, nat) -> Time, l: Link)
    requires LinkOk(s, delay, l)
    ensures FlightOnHeap(s, l, InFlight(s, l))
  {
    var flight, sent, d := InFlight(s, l), SentOn(s, l), Delivered(s, l);
    forall e: ScheduledEvent | e in s.events && e.link == l && e.kind.Delivery? ensures Flies(l, flight, 0, e) {
      assert Flies(l, sent, d, e);
      var i :| d <= i < |sent| && e == EventOf(l, sent[i]);
      assert flight[i - d] == sent[i];
    }
    forall i | 0 <= i < |flight| ensures EventOf(l, flight[i]) in s.events {
      assert EventOf(l, sent[d + i]) in s.events;
    }
    forall i, j | 0 <= i < j < |flight| ensures InOrder(flight, i, j) {
      assert InOrder(sent, d + i, d + j);
    }
  }

  function PacketsOf(records: seq<SentRecord>): (r: seq<Packet>)
    ensures |r| == |records| && forall i :: 0 <= i < |r| ==> r[i] == records[i].packet
  {
    seq(|records|, i requires 0 <= i < |records| => records[i].packet)
  }

  function PacketsGot(s: State, l: Link): (r: seq<Packet>)
    ensures |r| == |GotOn(s, l)| && forall i :: 0 <= i < |r| ==> r[i] == GotOn(s, l)[i].packet
  {
    seq(|GotOn(s, l)|, i requires 0 <= i < |GotOn(s, l)| => GotOn(s, l)[i].packet)
  }

  /**
   * In every run and on every link: the packets sent are exactly those received, followed by those
   * queued, followed by those in flight, which are the link's deliveries on the heap in heap order.
   */
  lemma FifoConservation(cfg: Config, n: nat, l: Link)
    requires ValidConfig(cfg)
    ensures Delivered(Run(cfg, n).sb, l) <= |SentOn(Run(cfg, n).sb, l)|
    ensures var s := Run(cfg, n).sb;
      && PacketsOf(SentOn(s, l)) == PacketsGot(s, l) + Queue(s, l) + PacketsOf(InFlight(s, l))
      && FlightOnHeap(s, l, InFlight(s, l))
  {
    hide Run, Wf;
    LinksAt(cfg, n);
    var s := Run(cfg, n).sb;
    assert LinkOk(s, cfg.delay, l);
    FlightIsOnHeap(s, cfg.delay, l);
  }

  /** The i-th packet received on a link is the i-th sent on it, no sooner than its delay allows. */
  lemma ReceptionAfterDelay(cfg: Config, n: nat, l: Link, i: nat)
    requires ValidConfig(cfg) && i < |GotOn(Run(cfg, n).sb, l)|
    ensures i < |SentOn(Run(cfg, n).sb, l)|
    ensures var sent, got := SentOn(Run(cfg, n).sb, l)[i], GotOn(Run(cfg, n).sb, l)[i];
      got.packet == sent.packet && sent.at + cfg.delay(l, sent.packet.size) <= got.at
  {
    LinksAt(cfg, n);
    assert LinkOk(Run(cfg, n).sb, cfg.delay, l);
  }
}
