/** Virtual time in every run: clocks, pending events and traces. */
module Causality {
  import opened Wrappers
  import opened SimTypes
  import opened SwitchboardSpec
  import opened Kernel

  /** The trace is time-ordered and nothing in it is later than `clock`. */
  ghost predicate OrderedUpTo(trace: seq<TraceEvent>, clock: Time) {
    && (forall i, j :: 0 <= i < j < |trace| ==> trace[i].timestamp <= trace[j].timestamp)
    && (forall i :: 0 <= i < |trace| ==> trace[i].timestamp <= clock)
  }

  ghost predicate WfTraces(s: State) {
    forall p :: OrderedUpTo(Trace(s, p), Clock(s, p))
  }

  /** No clock is ahead of `now`, no pending event behind it, and the active tasks are exactly at it. */
  ghost predicate WfTime(cfg: Config, k: Sim) {
    && (forall p :: Clock(k.sb, p) <= k.now)
    && (forall e :: e in k.sb.events ==> k.now <= e.arrival)
    && (forall p :: Active(k, p) ==> Clock(k.sb, p) == k.now)
    && WfTraces(k.sb)
  }

  lemma RecordKeepsTraces(s: State, p: PartyId, event: TraceEvent)
    requires WfTraces(s) && event.timestamp == Clock(s, p)
    ensures WfTraces(RecordEvent(s, p, event))
  {
    var r := RecordEvent(s, p, event);
    forall q ensures OrderedUpTo(Trace(r, q), Clock(r, q)) {
      assert OrderedUpTo(Trace(s, q), Clock(s, q));
    }
  }

  /** Anything that leaves the clocks alone and schedules nothing in the past keeps the times right. */
  lemma SameClocks(cfg: Config, k: Sim, r: Sim)
    requires WfTime(cfg, k) && r.sb.clocks == k.sb.clocks && r.now == k.now
    requires forall p :: Active(r, p) ==> Active(k, p)
    requires forall e :: e in r.sb.events ==> e in k.sb.events || k.now <= e.arrival
    requires WfTraces(r.sb)
    ensures WfTime(cfg, r)
  {
    assert forall p :: Clock(r.sb, p) == Clock(k.sb, p);
  }

  lemma CallKeepsTime(cfg: Config, k: Sim, p: PartyId)
    requires Wf(cfg, k) && WfTime(cfg, k) && k.cur == Some(p) && !IsReceive(OpOf(cfg, k, p))
    ensures WfTime(cfg, StepTask(cfg, k, p))
  {
    match OpOf(cfg, k, p) {
      case Send(to, packet) =>
        RecordKeepsTraces(k.sb, p, SendData(Clock(k.sb, p), Link(p, to), packet.size));
        SameTraces(RecordEvent(k.sb, p, SendData(Clock(k.sb, p), Link(p, to), packet.size)), StepTask(cfg, k, p).sb);
        assert Active(k, p);
      case Record(mark) =>
        RecordKeepsTraces(k.sb, p, Marked(Clock(k.sb, p), mark));
      case Finish =>
    }
    SameClocks(cfg, k, StepTask(cfg, k, p));
  }

  lemma SameTraces(s: State, t: State)
    requires WfTraces(s) && t.traces == s.traces && t.clocks == s.clocks
    ensures WfTraces(t)
  {
    forall q ensures OrderedUpTo(Trace(t, q), Clock(t, q)) {
      assert OrderedUpTo(Trace(s, q), Clock(s, q));
    }
  }

  /** A poll keeps the traces in order, moves no clock and puts nothing on the heap. */
  lemma PollKeepsTraces(s: State, p: PartyId, senders: seq<PartyId>, deadline: Option<Time>, blame: Option<PartyId>)
    requires WfTraces(s)
    ensures var t := PollReceive(s, p, senders, deadline, blame).0;
      WfTraces(t) && t.clocks == s.clocks && t.events == s.events
  {
    hide WfTraces, TakePacket, MinReady, LinksTo;
    var ready, u := MinReady(s, p, senders), UnparkAny(s, p, senders);
    SameTraces(s, u);
    SameTraces(s, ParkAny(s, p, senders));
    if ready.Some? {
      assert u.queues == s.queues;
      TakeKeepsTraces(u, Link(ready.value, p));
    }
  }

  lemma TakeKeepsTraces(s: State, l: Link)
    requires WfTraces(s) && Queue(s, l) != []
    ensures var t := TakePacket(s, l); WfTraces(t) && t.clocks == s.clocks && t.events == s.events
  {
    var event := ReceiveData(Clock(s, l.recipient), l, Queue(s, l)[0].size);
    RecordKeepsTraces(s, l.recipient, event);
    SameTraces(RecordEvent(s, l.recipient, event), TakePacket(s, l));
  }

  lemma ReceiveKeepsTime(cfg: Config, k: Sim, p: PartyId)
    requires Wf(cfg, k) && WfTime(cfg, k) && k.cur == Some(p) && IsReceive(OpOf(cfg, k, p))
    ensures WfTime(cfg, StepTask(cfg, k, p))
  {
    hide StepTask, WfHeap, WfWakers, MinReady, WfTraces, PollReceive, HistOf;
    OneReceive(cfg, k, p);
    var armed, r := Armed(cfg, k, p), StepTask(cfg, k, p);
    assert Active(k, p);
    SameTraces(k.sb, armed.sb);
    PollKeepsTraces(armed.sb, p, Senders(cfg, OpOf(cfg, k, p)), DeadlineOf(cfg, k, p), Blame(OpOf(cfg, k, p)));
    hide WfTraces, PollReceive;
    SameClocks(cfg, k, r);
  }

  lemma TickKeepsTime(cfg: Config, k: Sim, e: ScheduledEvent)
    requires Wf(cfg, k) && WfTime(cfg, k) && Idle(k) && IsNext(k.sb, e)
    ensures WfTime(cfg, Tick(k, e))
  {
    var r := Tick(k, e);
    assert forall q :: Clock(k.sb, q) <= k.now <= e.arrival;
    assert Clock(r.sb, e.link.recipient) == e.arrival;
    assert forall q :: q != e.link.recipient ==> Clock(r.sb, q) == Clock(k.sb, q);
    forall q ensures OrderedUpTo(Trace(r.sb, q), Clock(r.sb, q)) {
      assert OrderedUpTo(Trace(k.sb, q), Clock(k.sb, q));
    }
  }

  lemma StepKeepsTime(cfg: Config, k: Sim)
    requires Wf(cfg, k) && WfTime(cfg, k)
    ensures WfTime(cfg, Step(cfg, k))
    ensures k.now <= Step(cfg, k).now
  {
    if Halted(cfg, k) {
    } else if k.cur.Some? {
      if IsReceive(OpOf(cfg, k, k.cur.value)) {
        ReceiveKeepsTime(cfg, k, k.cur.value);
      } else {
        CallKeepsTime(cfg, k, k.cur.value);
      }
    } else if k.ready != [] {
      DispatchKeepsTasks(cfg, k);
    } else {
      TickKeepsTime(cfg, k, NextEvent(k.sb));
    }
  }

  lemma {:induction false} TimeAt(cfg: Config, n: nat)
    requires ValidConfig(cfg)
    ensures WfTime(cfg, Run(cfg, n))
  {
    if n > 0 {
      hide Step, Wf, WfTime;
      TimeAt(cfg, n - 1);
      StepKeepsTime(cfg, Run(cfg, n - 1));
    }
  }

  lemma NowStep(cfg: Config, n: nat)
    requires ValidConfig(cfg)
    ensures Run(cfg, n).now <= Run(cfg, n + 1).now
  {
    TimeAt(cfg, n);
    StepKeepsTime(cfg, Run(cfg, n));
  }

  /** Virtual time never runs backwards. */
  lemma {:induction false} NowIsMonotone(cfg: Config, m: nat, n: nat)
    requires ValidConfig(cfg) && m <= n
    ensures Run(cfg, m).now <= Run(cfg, n).now
    decreases n - m
  {
    if m < n {
      NowIsMonotone(cfg, m + 1, n);
      NowStep(cfg, m);
    }
  }

  /** The event that an idle tick takes off the heap at step `n`. */
  ghost predicate Pops(cfg: Config, n: int, e: ScheduledEvent) {
    var k := Run(cfg, n);
    !Halted(cfg, k) && Idle(k) && e == NextEvent(k.sb)
  }

  /** The tick that takes an event off the heap is at its instant. */
  lemma NowIsArrival(cfg: Config, n: nat, e: ScheduledEvent)
    requires ValidConfig(cfg) && Pops(cfg, n, e)
    ensures Run(cfg, n + 1).now == e.arrival
  {
    hide Run, WfTraces;
    TimeAt(cfg, n);
    RunStep(cfg, n + 1);
    assert Step(cfg, Run(cfg, n)) == Tick(Run(cfg, n), e);
  }

  lemma PoppedIsPending(cfg: Config, n: nat, e: ScheduledEvent)
    requires ValidConfig(cfg) && Pops(cfg, n, e)
    ensures e in Run(cfg, n).sb.events && Run(cfg, n).now <= e.arrival
  {
    hide Run, WfTraces, Step;
    TimeAt(cfg, n);
  }

  /** In every run the events come off the heap in the order of their arrivals. */
  lemma PopsInOrder(cfg: Config, m: nat, n: nat, e: ScheduledEvent, f: ScheduledEvent)
    requires ValidConfig(cfg) && m < n && Pops(cfg, m, e) && Pops(cfg, n, f)
    ensures e.arrival <= f.arrival
  {
    hide Run, Pops;
    NowIsArrival(cfg, m, e);
    PoppedIsPending(cfg, n, f);
    NowIsMonotone(cfg, m + 1, n);
  }

  /**
   * At an idle tick no clock, stale or not, is ahead of a pending event; the tick moves the
   * recipient's clock to exactly the event; and a task it wakes is the recipient, at that instant.
   */
  lemma TickIsCausal(cfg: Config, n: nat, e: ScheduledEvent, p: PartyId)
    requires ValidConfig(cfg) && Pops(cfg, n, e)
    ensures forall f :: f in Run(cfg, n).sb.events ==> Clock(Run(cfg, n).sb, p) <= f.arrival
    ensures Clock(Run(cfg, n + 1).sb, e.link.recipient) == e.arrival
    ensures p in Run(cfg, n + 1).ready ==> p == e.link.recipient
    ensures p != e.link.recipient ==> Clock(Run(cfg, n + 1).sb, p) == Clock(Run(cfg, n).sb, p)
  {
    hide Run;
    TimeAt(cfg, n);
    RunStep(cfg, n + 1);
  }

  /** Every trace of every run is time-ordered. */
  lemma TracesAreOrdered(cfg: Config, n: nat, p: PartyId)
    requires ValidConfig(cfg)
    ensures OrderedUpTo(Trace(Run(cfg, n).sb, p), Clock(Run(cfg, n).sb, p))
  {
    TimeAt(cfg, n);
  }
}
