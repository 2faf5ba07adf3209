/** What the traces say: in every run they record what the parties called and what they got, and nothing else. */
module Traces {
  import opened Wrappers
  import opened SimTypes
  import opened SwitchboardSpec
  import opened Kernel
  import opened Links
  import opened Histories
  import BandwidthTree

  /** The trace without the times of its marks. */
  function Unstamped(trace: seq<TraceEvent>): (r: seq<TraceEvent>)
    ensures |r| == |trace|
    ensures forall i :: 0 <= i < |r| ==> r[i] == if trace[i].Marked? then Marked(0, trace[i].mark) else trace[i]
  {
    seq(|trace|, i requires 0 <= i < |trace| => if trace[i].Marked? then Marked(0, trace[i].mark) else trace[i])
  }

  /** When the i-th packet was sent on the link, and when it was received. */
  function SentAt(s: State, l: Link, i: nat): Time { if i < |SentOn(s, l)| then SentOn(s, l)[i].at else 0 }

  function GotAt(s: State, l: Link, i: nat): Time { if i < |GotOn(s, l)| then GotOn(s, l)[i].at else 0 }

  /** What the next call of `p`, which returned `res` after the results `h`, leaves in the trace. */
  function EntryOf(cfg: Config, s: State, p: PartyId, h: seq<Res>, res: Res): seq<TraceEvent> {
    match cfg.prog(p, h)
    case Send(to, packet) => [SendData(SentAt(s, Link(p, to), |SentTo(cfg, p, h, to)|), Link(p, to), packet.size)]
    case Record(mark) => [Marked(0, mark)]
    case _ =>
      if res.Got? then
        var l := Link(res.sender, p);
        [ReceiveData(GotAt(s, l, |GotFrom(h, res.sender)|), l, res.packet.size)]
      else []
  }

  /** What the calls of `p` that returned `h` leave in its trace. */
  function Entries(cfg: Config, s: State, p: PartyId, h: seq<Res>): seq<TraceEvent> {
    if h == [] then []
    else
      var before := h[..|h| - 1];
      Entries(cfg, s, p, before) + EntryOf(cfg, s, p, before, h[|h| - 1])
  }

  ghost predicate WfEntries(cfg: Config, k: Sim) {
    forall p :: Unstamped(Trace(k.sb, p)) == if p in cfg.parties then Entries(cfg, k.sb, p, HistOf(k, p)) else []
  }

  /** The logs of `t` extend those of `s`. */
  ghost predicate Extends(s: State, t: State) {
    forall l :: SentOn(s, l) <= SentOn(t, l) && GotOn(s, l) <= GotOn(t, l)
  }

  /** The logs are long enough for what the results say. */
  ghost predicate Covers(cfg: Config, s: State, p: PartyId, h: seq<Res>) {
    forall q :: |SentTo(cfg, p, h, q)| <= |SentOn(s, Link(p, q))| && |GotFrom(h, q)| <= |GotOn(s, Link(q, p))|
  }

  lemma CoversBefore(cfg: Config, s: State, p: PartyId, before: seq<Res>, res: Res)
    requires Covers(cfg, s, p, before + [res])
    ensures Covers(cfg, s, p, before)
  {
    hide SentTo, GotFrom, SentOn, GotOn;
    forall q
      ensures |SentTo(cfg, p, before, q)| <= |SentOn(s, Link(p, q))| && |GotFrom(before, q)| <= |GotOn(s, Link(q, p))|
    {
      Grow(cfg, p, before, res, q);
    }
  }

  lemma {:induction false} EntriesStay(cfg: Config, s: State, t: State, p: PartyId, h: seq<Res>)
    requires Extends(s, t) && Covers(cfg, s, p, h)
    ensures Entries(cfg, t, p, h) == Entries(cfg, s, p, h)
  {
    if h != [] {
      hide Extends, Covers, EntryOf;
      var before := h[..|h| - 1];
      assert h == before + [h[|h| - 1]];
      CoversBefore(cfg, s, p, before, h[|h| - 1]);
      EntriesStay(cfg, s, t, p, before);
      EntryStays(cfg, s, t, p, before, h[|h| - 1], h);
    }
  }

  lemma EntryStays(cfg: Config, s: State, t: State, p: PartyId, before: seq<Res>, res: Res, h: seq<Res>)
    requires Extends(s, t) && Covers(cfg, s, p, h) && h == before + [res]
    ensures EntryOf(cfg, t, p, before, res) == EntryOf(cfg, s, p, before, res)
  {
    hide SentOn, GotOn;
    var op := cfg.prog(p, before);
    Grow(cfg, p, before, res, if op.Send? then op.to else if res.Got? then res.sender else 0);
  }

  lemma HistoriesCover(cfg: Config, k: Sim, p: PartyId)
    requires WfHistories(cfg, k) && p in cfg.parties
    ensures Covers(cfg, k.sb, p, HistOf(k, p))
    ensures forall q ::
      |SentTo(cfg, p, HistOf(k, p), q)| == |SentOn(k.sb, Link(p, q))|
      && |GotFrom(HistOf(k, p), q)| == |GotOn(k.sb, Link(q, p))|
  {
    hide GotFrom, SentTo;
    forall q ensures |SentTo(cfg, p, HistOf(k, p), q)| == |SentOn(k.sb, Link(p, q))|
    ensures |GotFrom(HistOf(k, p), q)| == |GotOn(k.sb, Link(q, p))|
    {
      assert LinkHistory(cfg, k, Link(p, q)) && LinkHistory(cfg, k, Link(q, p));
    }
  }

  /** The call of `p` that returned `res` has turned `s` into `t`: it is in the trace of `p`, as it is in the logs. */
  ghost predicate Traced(cfg: Config, s: State, t: State, p: PartyId, h: seq<Res>, res: Res) {
    && Extends(s, t)
    && (forall q :: q != p ==> Trace(t, q) == Trace(s, q))
    && Unstamped(Trace(t, p)) == Unstamped(Trace(s, p)) + EntryOf(cfg, t, p, h, res)
  }

  lemma AdvanceKeepsEntries(cfg: Config, k: Sim, p: PartyId, sb: State, res: Res)
    requires p in cfg.parties && WfHistories(cfg, k) && WfEntries(cfg, k) && Traced(cfg, k.sb, sb, p, HistOf(k, p), res)
    ensures WfEntries(cfg, Advance(k, p, sb, res))
  {
    hide WfHistories, EntryOf, Unstamped, Extends, Trace;
    var r := Advance(k, p, sb, res);
    forall q ensures Unstamped(Trace(r.sb, q)) == if q in cfg.parties then Entries(cfg, r.sb, q, HistOf(r, q)) else [] {
      if q in cfg.parties {
        HistoriesCover(cfg, k, q);
        EntriesStay(cfg, k.sb, sb, q, HistOf(k, q));
        if q == p { assert HistOf(r, p)[..|HistOf(k, p)|] == HistOf(k, p); }
      }
    }
  }

  lemma SameEntries(cfg: Config, k: Sim, r: Sim)
    requires WfHistories(cfg, k) && WfEntries(cfg, k)
    requires r.hist == k.hist && r.sb.sent == k.sb.sent && r.sb.got == k.sb.got && r.sb.traces == k.sb.traces
    ensures WfEntries(cfg, r)
  {
    hide WfHistories, Entries, Unstamped;
    forall p ensures Unstamped(Trace(r.sb, p)) == if p in cfg.parties then Entries(cfg, r.sb, p, HistOf(r, p)) else [] {
      if p in cfg.parties {
        HistoriesCover(cfg, k, p);
        EntriesStay(cfg, k.sb, r.sb, p, HistOf(k, p));
      }
    }
  }

  lemma UnstampedMore(trace: seq<TraceEvent>, event: TraceEvent)
    ensures Unstamped(trace + [event]) ==
            Unstamped(trace) + [if event.Marked? then Marked(0, event.mark) else event]
  {
  }

  lemma SendTraced(cfg: Config, k: Sim, p: PartyId)
    requires p in cfg.parties && WfHistories(cfg, k) && OpOf(cfg, k, p).Send?
    ensures var op := OpOf(cfg, k, p);
      Traced(cfg, k.sb, SendPacket(k.sb, cfg.delay, Link(p, op.to), op.packet), p, HistOf(k, p), Done)
  {
    hide GotFrom, SentTo, ArrivalOf, WfHistories, Covers;
    var op := OpOf(cfg, k, p);
    var l := Link(p, op.to);
    HistoriesCover(cfg, k, p);
    UnstampedMore(Trace(k.sb, p), SendData(Clock(k.sb, p), l, op.packet.size));
  }

  lemma TakeGot(s: State, l: Link)
    requires Queue(s, l) != []
    ensures var t, packet := TakePacket(s, l), Queue(s, l)[0];
      && Extends(s, t) && GotOn(t, l) == GotOn(s, l) + [GotRecord(packet, Clock(s, l.recipient))]
      && Trace(t, l.recipient) == Trace(s, l.recipient) + [ReceiveData(Clock(s, l.recipient), l, packet.size)]
      && forall q :: q != l.recipient ==> Trace(t, q) == Trace(s, q)
  {
  }

  lemma TakeTraced(cfg: Config, k: Sim, s: State, p: PartyId, q: PartyId)
    requires p in cfg.parties && WfHistories(cfg, k) && IsReceive(OpOf(cfg, k, p)) && Queue(s, Link(q, p)) != []
    requires s.traces == k.sb.traces && s.got == k.sb.got && s.sent == k.sb.sent
    ensures Traced(cfg, k.sb, TakePacket(s, Link(q, p)), p, HistOf(k, p), Got(q, Queue(s, Link(q, p))[0]))
  {
    hide GotFrom, SentTo, Unstamped, WfHistories, TakePacket, Covers, HistOf, Queue;
    var l := Link(q, p);
    HistoriesCover(cfg, k, p);
    TakeGot(s, l);
    UnstampedMore(Trace(k.sb, p), ReceiveData(Clock(s, p), l, Queue(s, l)[0].size));
  }

  lemma SettleKeepsEntries(cfg: Config, k: Sim, p: PartyId, senders: seq<PartyId>, deadline: Option<Time>,
        blame: Option<PartyId>)
    requires p in cfg.parties && WfHistories(cfg, k) && WfEntries(cfg, k) && IsReceive(OpOf(cfg, k, p))
    ensures WfEntries(cfg, Settle(k, p, PollReceive(k.sb, p, senders, deadline, blame)))
  {
    hide WfHistories, WfEntries, TakePacket, MinReady, Unstamped, LinksTo;
    var ready, unparked := MinReady(k.sb, p, senders), UnparkAny(k.sb, p, senders);
    var poll := PollReceive(k.sb, p, senders, deadline, blame);
    if ready.Some? {
      TakeTraced(cfg, k, unparked, p, ready.value);
      AdvanceKeepsEntries(cfg, k, p, poll.0, poll.1.value);
    } else if poll.1.Some? {
      assert Unstamped(Trace(k.sb, p)) + [] == Unstamped(Trace(k.sb, p));
      AdvanceKeepsEntries(cfg, k, p, poll.0, poll.1.value);
    } else {
      SameEntries(cfg, k, Settle(k, p, poll));
    }
  }

  lemma CallKeepsEntries(cfg: Config, k: Sim, p: PartyId)
    requires Wf(cfg, k) && WfHistories(cfg, k) && WfEntries(cfg, k) && k.cur == Some(p)
    ensures WfEntries(cfg, StepTask(cfg, k, p))
  {
    hide WfHistories, WfEntries, SendPacket, PollReceive, WfHeap, WfWakers;
    var op := OpOf(cfg, k, p);
    if IsReceive(op) {
      OneReceive(cfg, k, p);
      ArmFrame(cfg, k, p);
      ArmKeepsHistories(cfg, k, p);
      var armed := Armed(cfg, k, p);
      SameEntries(cfg, k, armed);
      SettleKeepsEntries(cfg, armed, p, Senders(cfg, op), DeadlineOf(cfg, k, p), Blame(op));
    } else if op.Send? {
      SendTraced(cfg, k, p);
      AdvanceKeepsEntries(cfg, k, p, SendPacket(k.sb, cfg.delay, Link(p, op.to), op.packet), Done);
    } else if op.Record? {
      UnstampedMore(Trace(k.sb, p), Marked(Clock(k.sb, p), op.mark));
      AdvanceKeepsEntries(cfg, k, p, RecordMark(k.sb, p, op.mark), Done);
    } else {
      SameEntries(cfg, k, StepTask(cfg, k, p));
    }
  }

  lemma StepKeepsEntries(cfg: Config, k: Sim)
    requires Wf(cfg, k) && WfHistories(cfg, k) && WfEntries(cfg, k)
    ensures WfEntries(cfg, Step(cfg, k))
  {
    hide WfHistories, WfEntries, StepTask, WfWakers, WfHeap;
    if !Halted(cfg, k) {
      if k.cur.Some? {
        CallKeepsEntries(cfg, k, k.cur.value);
      } else {
        SameEntries(cfg, k, Step(cfg, k));
      }
    }
  }

  /**
   * In every run the trace of a party is, in order, one entry for every packet it sent, one for every
   * packet it received and one for every mark it recorded, each with the time, the link and the size of
   * that packet as the link's logs have them.
   */
  lemma TracesAt(cfg: Config, n: nat, p: PartyId)
    requires ValidConfig(cfg)
    ensures Unstamped(Trace(Run(cfg, n).sb, p)) ==
      if p in cfg.parties then Entries(cfg, Run(cfg, n).sb, p, HistOf(Run(cfg, n), p)) else []
  {
    hide Run, Entries, Unstamped;
    EntriesAt(cfg, n);
  }

  lemma NothingTraced(cfg: Config)
    ensures WfEntries(cfg, Run(cfg, 0))
  {
    var k := Run(cfg, 0);
    forall p ensures Trace(k.sb, p) == [] && HistOf(k, p) == [] {}
  }

  lemma {:induction false} EntriesAt(cfg: Config, n: nat)
    requires ValidConfig(cfg)
    ensures WfEntries(cfg, Run(cfg, n))
  {
    hide Run, Step, Wf, WfEntries, WfHistories;
    if n == 0 {
      NothingTraced(cfg);
    } else {
      EntriesAt(cfg, n - 1);
      HistoriesAt(cfg, n - 1);
      RunStep(cfg, n);
      StepKeepsEntries(cfg, Run(cfg, n - 1));
    }
  }

  /** A mark gets the clock of the party that records it. */
  lemma MarksAreStamped(cfg: Config, n: nat, p: PartyId)
    requires ValidConfig(cfg) && !Halted(cfg, Run(cfg, n)) && Run(cfg, n).cur == Some(p)
    requires OpOf(cfg, Run(cfg, n), p).Record?
    ensures Trace(Run(cfg, n + 1).sb, p) ==
      Trace(Run(cfg, n).sb, p) + [Marked(Clock(Run(cfg, n).sb, p), OpOf(cfg, Run(cfg, n), p).mark)]
  {
    hide Run, Wf, HistOf, Halted;
    RunStep(cfg, n + 1);
  }

  // --- The bytes of a trace ---

  function Sizes(packets: seq<Packet>): nat {
    if packets == [] then 0 else Sizes(packets[..|packets| - 1]) + packets[|packets| - 1].size
  }

  /** The sizes of all packets that `p` has sent to the listed peers. */
  function SizesTo(s: State, p: PartyId, peers: seq<PartyId>): nat {
    if peers == [] then 0 else Sizes(PacketsOf(SentOn(s, Link(p, peers[0])))) + SizesTo(s, p, peers[1..])
  }

  /** The same, by the calls that returned `h`. */
  function SizesBy(cfg: Config, p: PartyId, h: seq<Res>, peers: seq<PartyId>): nat {
    if peers == [] then 0 else Sizes(SentTo(cfg, p, h, peers[0])) + SizesBy(cfg, p, h, peers[1..])
  }

  lemma {:induction false} SentAppend(a: seq<TraceEvent>, b: seq<TraceEvent>)
    ensures BandwidthTree.Sent(a + b) == BandwidthTree.Sent(a) + BandwidthTree.Sent(b)
  {
    if a == [] {
      assert a + b == b;
    } else {
      SentAppend(a[1..], b);
      assert (a + b)[1..] == a[1..] + b;
    }
  }

  lemma {:induction false} SentUnstamped(trace: seq<TraceEvent>)
    ensures BandwidthTree.Sent(Unstamped(trace)) == BandwidthTree.Sent(trace)
  {
    if trace != [] {
      SentUnstamped(trace[1..]);
      assert Unstamped(trace)[1..] == Unstamped(trace[1..]);
    }
  }

  lemma OneMoreSize(packets: seq<Packet>, last: Packet)
    ensures Sizes(packets + [last]) == Sizes(packets) + last.size
  {
    assert (packets + [last])[..|packets|] == packets;
  }

  /** One call adds the size of what it sends, once, if it sends to a listed peer. */
  lemma {:induction false} SizesGrow(cfg: Config, p: PartyId, h: seq<Res>, res: Res, peers: seq<PartyId>)
    requires Distinct(peers)
    ensures var op := cfg.prog(p, h);
      SizesBy(cfg, p, h + [res], peers) ==
        SizesBy(cfg, p, h, peers) + if op.Send? && op.to in peers then op.packet.size else 0
  {
    if peers != [] {
      hide SentTo, Sizes;
      var op, rest, first := cfg.prog(p, h), peers[1..], peers[0];
      SizesGrow(cfg, p, h, res, rest);
      Grow(cfg, p, h, res, first);
      assert peers == [first] + rest && first !in rest;
      if op.Send? && op.to == first {
        OneMoreSize(SentTo(cfg, p, h, first), op.packet);
      } else {
        assert SentTo(cfg, p, h + [res], first) == SentTo(cfg, p, h, first);
      }
    }
  }

  lemma {:induction false} NoSizes(cfg: Config, p: PartyId, peers: seq<PartyId>)
    ensures SizesBy(cfg, p, [], peers) == 0
  {
    if peers != [] { NoSizes(cfg, p, peers[1..]); }
  }

  lemma {:induction false} EntriesBytes(cfg: Config, s: State, p: PartyId, h: seq<Res>, peers: seq<PartyId>)
    requires Distinct(peers) && p !in peers && forall q :: q != p && SentTo(cfg, p, h, q) != [] ==> q in peers
    ensures BandwidthTree.Sent(Entries(cfg, s, p, h)) == SizesBy(cfg, p, h, peers)
  {
    if h == [] {
      NoSizes(cfg, p, peers);
    } else {
      hide SentTo, SentAt, GotAt, GotFrom;
      var before, res := h[..|h| - 1], h[|h| - 1];
      assert h == before + [res];
      forall q ensures SentTo(cfg, p, before, q) != [] ==> SentTo(cfg, p, h, q) != [] { Grow(cfg, p, before, res, q); }
      EntriesBytes(cfg, s, p, before, peers);
      SizesGrow(cfg, p, before, res, peers);
      SentAppend(Entries(cfg, s, p, before), EntryOf(cfg, s, p, before, res));
      var op := cfg.prog(p, before);
      if op.Send? { Grow(cfg, p, before, res, op.to); }
      OneEntry(cfg, s, p, before, res);
    }
  }

  lemma OneEntry(cfg: Config, s: State, p: PartyId, h: seq<Res>, res: Res)
    ensures var op := cfg.prog(p, h);
      BandwidthTree.Sent(EntryOf(cfg, s, p, h, res)) == if op.Send? && op.to != p then op.packet.size else 0
  {
    var e := EntryOf(cfg, s, p, h, res);
    assert e != [] ==> e[1..] == [];
  }

  lemma {:induction false} SizesOnLinks(cfg: Config, k: Sim, p: PartyId, peers: seq<PartyId>)
    requires WfHistories(cfg, k) && p in cfg.parties
    ensures SizesTo(k.sb, p, peers) == SizesBy(cfg, p, HistOf(k, p), peers)
  {
    if peers != [] {
      SizesOnLinks(cfg, k, p, peers[1..]);
      assert LinkHistory(cfg, k, Link(p, peers[0]));
    }
  }

  /**
   * In every run the bytes that the trace of a party comes to, in the counters as in the tree, are the
   * sizes of the packets it has sent to others.
   */
  lemma BytesAreSizes(cfg: Config, n: nat, p: PartyId, peers: seq<PartyId>, id: nat)
    requires ValidConfig(cfg) && p in cfg.parties && Distinct(peers) && p !in peers
    requires forall q :: q != p && SentOn(Run(cfg, n).sb, Link(p, q)) != [] ==> q in peers
    ensures var s := Run(cfg, n).sb;
      var trace := Trace(s, p);
      && BandwidthTree.Sent(trace) == SizesTo(s, p, peers)
      && (BandwidthTree.StaysOpen(trace, |trace|) ==>
            BandwidthTree.Total(BandwidthTree.ParseFrom(BandwidthTree.Node(id, 0, []), trace).0)
              == SizesTo(s, p, peers))
  {
    hide Run, SentTo, GotFrom, Entries, SizesTo, SizesBy, BandwidthTree.StaysOpen;
    var k := Run(cfg, n);
    var trace := Trace(k.sb, p);
    TracesAt(cfg, n, p);
    HistoriesAt(cfg, n);
    SentUnstamped(trace);
    forall q | q != p && SentTo(cfg, p, HistOf(k, p), q) != [] ensures q in peers {
      assert LinkHistory(cfg, k, Link(p, q));
    }
    EntriesBytes(cfg, k.sb, p, HistOf(k, p), peers);
    SizesOnLinks(cfg, k, p, peers);
    if BandwidthTree.StaysOpen(trace, |trace|) { BandwidthTree.TotalsCoincide(id, trace); }
  }
}
