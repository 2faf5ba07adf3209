/** A timed receive from its first poll to its one result, in every run. */
module ReceiveLife {
  import opened Wrappers
  import opened SimTypes
  import opened SwitchboardSpec
  import opened Kernel
  import opened Causality
  import opened Links
  import opened Wakeups
  import opened Termination
  import opened Histories
  import opened TimedReceive
  import opened StaleTimers

  /** The first poll of a timed receive, which may return at once. */
  ghost predicate FirstPoll(cfg: Config, n: int, p: PartyId) {
    var k := Run(cfg, n);
    k.cur == Some(p) && p in k.hist && IsTimed(OpOf(cfg, k, p)) && p !in k.wait
  }

  /** `p` is parked at a timed receive with the deadline `deadline`. */
  ghost predicate Parked(cfg: Config, k: Sim, p: PartyId, h: seq<Res>, deadline: Time) {
    && Wf(cfg, k) && Blocked(cfg, k, p) && p in k.hist && HistOf(k, p) == h && IsTimed(OpOf(cfg, k, p))
    && p in k.wait && TimerOf(k, p).arrival == deadline
  }

  // --- What is sent later arrives later ---

  lemma StepSends(cfg: Config, k: Sim, l: Link)
    requires Wf(cfg, k) && WfTime(cfg, k) && WfLinks(k.sb, cfg.delay)
    ensures var r := Step(cfg, k);
      SentOn(r.sb, l) == SentOn(k.sb, l) || (|SentOn(r.sb, l)| == |SentOn(k.sb, l)| + 1
        && SentOn(k.sb, l) <= SentOn(r.sb, l)
        && k.now <= SentOn(r.sb, l)[|SentOn(k.sb, l)|].arrival)
  {
    hide WfTraces, WfHeap, WfWakers, WfLinks, PollReceive;
    if !Halted(cfg, k) && k.cur.Some? {
      var p := k.cur.value;
      if IsReceive(OpOf(cfg, k, p)) {
        OneReceive(cfg, k, p);
        ArmFrame(cfg, k, p);
        PollSends(Armed(cfg, k, p).sb, p, Senders(cfg, OpOf(cfg, k, p)), DeadlineOf(cfg, k, p), Blame(OpOf(cfg, k, p)));
      }
      assert Active(k, p);
    }
  }

  lemma PollSends(s: State, p: PartyId, senders: seq<PartyId>, deadline: Option<Time>, blame: Option<PartyId>)
    ensures PollReceive(s, p, senders, deadline, blame).0.sent == s.sent
  {
    hide MinReady;
  }

  /** What was sent stays in the log, and what is sent from a state on arrives no sooner than its instant. */
  lemma {:induction false} SentLater(cfg: Config, n: nat, m: nat, l: Link)
    requires ValidConfig(cfg) && n <= m
    ensures SentOn(Run(cfg, n).sb, l) <= SentOn(Run(cfg, m).sb, l)
    ensures forall i :: |SentOn(Run(cfg, n).sb, l)| <= i < |SentOn(Run(cfg, m).sb, l)| ==>
      Run(cfg, n).now <= SentOn(Run(cfg, m).sb, l)[i].arrival
    decreases m
  {
    hide Run, Step, Wf, WfTime, WfLinks;
    if n < m {
      SentLater(cfg, n, m - 1, l);
      RunStep(cfg, m);
      WfAllAt(cfg, m - 1);
      StepSends(cfg, Run(cfg, m - 1), l);
      NowIsMonotone(cfg, n, m - 1);
    }
  }

  /** With nothing queued on the link, what has not been received from it arrives no sooner than any pending event. */
  lemma InFlightLater(s: State, delay: (Link, nat) -> Time, l: Link, x: Time, i: nat)
    requires LinkOk(s, delay, l) && Queue(s, l) == [] && |GotOn(s, l)| <= i < |SentOn(s, l)|
    requires forall e :: e in s.events ==> x <= e.arrival
    ensures x <= SentOn(s, l)[i].arrival
  {
    assert EventOf(l, SentOn(s, l)[i]) in s.events;
  }

  /** No packet of the link beyond the first `got` ever arrives before `x`. */
  ghost predicate NoneBefore(cfg: Config, l: Link, got: nat, x: Time) {
    forall m: nat, i: nat :: got <= i < |SentOn(Run(cfg, m).sb, l)| ==> x <= SentOn(Run(cfg, m).sb, l)[i].arrival
  }

  /** At a state with nothing queued, all packets still to come arrive no sooner than the pending events. */
  lemma NothingSooner(cfg: Config, n: nat, l: Link, x: Time)
    requires ValidConfig(cfg) && Queue(Run(cfg, n).sb, l) == []
      && (forall e :: e in Run(cfg, n).sb.events ==> x <= e.arrival)
    requires SentOn(Run(cfg, n + 1).sb, l) == SentOn(Run(cfg, n).sb, l) && x <= Run(cfg, n + 1).now
    ensures NoneBefore(cfg, l, |GotOn(Run(cfg, n).sb, l)|, x)
  {
    hide Run, Step, Wf;
    WfAllAt(cfg, n);
    assert LinkOk(Run(cfg, n).sb, cfg.delay, l);
    var sent := SentOn(Run(cfg, n).sb, l);
    forall m: nat, i: nat | |GotOn(Run(cfg, n).sb, l)| <= i < |SentOn(Run(cfg, m).sb, l)|
      ensures x <= SentOn(Run(cfg, m).sb, l)[i].arrival {
      if m <= n {
        SentLater(cfg, m, n, l);
        InFlightLater(Run(cfg, n).sb, cfg.delay, l, x, i);
      } else {
        SentLater(cfg, n + 1, m, l);
        if i < |sent| { InFlightLater(Run(cfg, n).sb, cfg.delay, l, x, i); }
      }
    }
  }

  // --- While the task is parked ---

  lemma ParkedFacts(cfg: Config, n: nat, p: PartyId, h: seq<Res>, deadline: Time)
    requires ValidConfig(cfg) && Parked(cfg, Run(cfg, n), p, h, deadline)
    ensures var k := Run(cfg, n);
      && p in cfg.parties && !Halted(cfg, k) && TimerOf(k, p) in k.sb.events
      && forall q :: q in Senders(cfg, OpOf(cfg, k, p)) ==> Queue(k.sb, Link(q, p)) == []
  {
    hide Run, WfTime, WfLinks, WfWakers;
    WfAllAt(cfg, n);
    var k := Run(cfg, n);
    assert ParkedProperly(cfg, k, p) && TimerPending(cfg, k, p);
  }

  /** The others' calls and the events elsewhere leave the task parked. */
  lemma StaysParked(cfg: Config, n: nat, p: PartyId, h: seq<Res>, deadline: Time)
    requires ValidConfig(cfg) && Parked(cfg, Run(cfg, n), p, h, deadline)
    requires var k := Run(cfg, n); forall e :: Pops(cfg, n, e) ==> !Awaits(cfg, k, p, e.link)
    ensures Parked(cfg, Run(cfg, n + 1), p, h, deadline)
  {
    hide Run, WfTime, WfLinks, WfWait, WfWakers, WfHeap, StepTask;
    ParkedFacts(cfg, n, p, h, deadline);
    RunStep(cfg, n + 1);
    WfAllAt(cfg, n);
    var k := Run(cfg, n);
    StepKeepsTasks(cfg, k);
    if k.cur.Some? {
      CallLeavesAlone(cfg, k, k.cur.value, p);
    } else if k.ready == [] {
      var e := NextEvent(k.sb);
      assert Pops(cfg, n, e);
      TickVerdict(cfg, k, e, p);
    }
  }

  /** What an event on an awaited link makes of the receive: its result, or nothing if it is a stale timer. */
  ghost predicate Decided(cfg: Config, k: Sim, e: ScheduledEvent, p: PartyId, res: Res) {
    Awaits(cfg, k, p, e.link) &&
    if e.kind.Delivery? then res == Got(e.link.sender, e.kind.packet)
    else e.arrival == TimerOf(k, p).arrival && res == TimedOut(Blame(OpOf(cfg, k, p)))
  }

  lemma ThreeRun(cfg: Config, n: nat, p: PartyId, h: seq<Res>, deadline: Time, e: ScheduledEvent)
    requires ValidConfig(cfg) && Parked(cfg, Run(cfg, n), p, h, deadline) && Pops(cfg, n, e)
      && Awaits(cfg, Run(cfg, n), p, e.link)
    ensures var k := Run(cfg, n);
      && e.link in k.sb.parked && p in cfg.parties && Idle(k) && IsNext(k.sb, e)
      && Run(cfg, n + 1) == Tick(k, e) && Run(cfg, n + 2) == Woken(k, e) && Woken(k, e).cur == Some(p)
      && p in Woken(k, e).hist && Run(cfg, n + 3) == StepTask(cfg, Woken(k, e), p)
  {
    hide Run, WfTime, WfLinks, WfWait, WfWakers, StepTask;
    ParkedFacts(cfg, n, p, h, deadline);
    WfAllAt(cfg, n);
    var k := Run(cfg, n);
    TickVerdict(cfg, k, e, p);
    RunStep(cfg, n + 1);
    RunStep(cfg, n + 2);
    RunStep(cfg, n + 3);
    assert !AllFinished(cfg, Tick(k, e)) && !AllFinished(cfg, Woken(k, e));
  }

  /** A stale timer leaves the task parked as it was. */
  lemma StaleLeavesParked(cfg: Config, n: nat, p: PartyId, h: seq<Res>, deadline: Time, e: ScheduledEvent)
    requires ValidConfig(cfg) && Parked(cfg, Run(cfg, n), p, h, deadline) && Pops(cfg, n, e)
      && Awaits(cfg, Run(cfg, n), p, e.link)
    requires e.kind.Timer? && e.arrival != deadline
    ensures Parked(cfg, Run(cfg, n + 3), p, h, deadline)
    ensures HistOf(Run(cfg, n + 1), p) == h && HistOf(Run(cfg, n + 2), p) == h
  {
    hide Run, WfTime, WfLinks, WfWait, WfWakers, WfHeap, StepTask;
    ThreeRun(cfg, n, p, h, deadline, e);
    WfAllAt(cfg, n);
    WokenForNothing(cfg, Run(cfg, n), e, p);
  }

  /** An event that decides the receive gives it its result. */
  lemma DecidedReturns(cfg: Config, n: nat, p: PartyId, h: seq<Res>, deadline: Time, e: ScheduledEvent)
        returns (res: Res)
    requires ValidConfig(cfg) && Parked(cfg, Run(cfg, n), p, h, deadline) && Pops(cfg, n, e)
      && Awaits(cfg, Run(cfg, n), p, e.link)
    requires e.kind.Delivery? || e.arrival == deadline
    ensures Decided(cfg, Run(cfg, n), e, p, res) && e.arrival <= deadline
    ensures Run(cfg, n + 2).cur == Some(p) && HistOf(Run(cfg, n + 2), p) == h
      && Clock(Run(cfg, n + 2).sb, p) == e.arrival
    ensures HistOf(Run(cfg, n + 1), p) == h && HistOf(Run(cfg, n + 3), p) == h + [res]
  {
    hide Run, WfTime, WfLinks, WfWait, WfWakers, WfHeap, StepTask;
    ThreeRun(cfg, n, p, h, deadline, e);
    WfAllAt(cfg, n);
    var k := Run(cfg, n);
    TickVerdict(cfg, k, e, p);
    res := if e.kind.Delivery? then Got(e.link.sender, e.kind.packet) else TimedOut(Blame(OpOf(cfg, k, p)));
  }

  /** The event that decides a parked receive: the run comes to it before the receive has a result. */
  lemma {:induction false} DecidingEvent(cfg: Config, n: nat, m: nat, p: PartyId, h: seq<Res>, deadline: Time)
        returns (i: nat, e: ScheduledEvent)
    requires ValidConfig(cfg) && n <= m && Parked(cfg, Run(cfg, n), p, h, deadline)
    requires p in Run(cfg, m).hist && |HistOf(Run(cfg, m), p)| > |h|
    ensures n <= i && i + 2 < m && Parked(cfg, Run(cfg, i), p, h, deadline) && Pops(cfg, i, e)
      && Awaits(cfg, Run(cfg, i), p, e.link)
    ensures e.kind.Delivery? || e.arrival == deadline
    decreases m - n
  {
    hide Run, Parked, Wf, Pops, Awaits, HistOf, Decided;
    ParkedIs(cfg, n, p, h, deadline);
    if exists e :: Pops(cfg, n, e) && Awaits(cfg, Run(cfg, n), p, e.link) {
      e :| Pops(cfg, n, e) && Awaits(cfg, Run(cfg, n), p, e.link);
      if e.kind.Timer? && e.arrival != deadline {
        StaleLeavesParked(cfg, n, p, h, deadline, e);
        i, e := DecidingEvent(cfg, n + 3, m, p, h, deadline);
      } else {
        var res := DecidedReturns(cfg, n, p, h, deadline, e);
        i := n;
      }
    } else {
      StaysParked(cfg, n, p, h, deadline);
      i, e := DecidingEvent(cfg, n + 1, m, p, h, deadline);
    }
  }

  lemma ParkedIs(cfg: Config, n: nat, p: PartyId, h: seq<Res>, deadline: Time)
    requires ValidConfig(cfg) && Parked(cfg, Run(cfg, n), p, h, deadline)
    ensures p in Run(cfg, n).hist && HistOf(Run(cfg, n), p) == h
  {
  }

  // --- The first poll ---

  function DeadlineAt(cfg: Config, k: Sim, p: PartyId): Time {
    Clock(k.sb, p) + if IsTimed(OpOf(cfg, k, p)) then OpOf(cfg, k, p).timeout else 0
  }

  lemma FirstPollFrame(cfg: Config, k: Sim, p: PartyId)
    requires WfAll(cfg, k) && k.cur == Some(p) && IsTimed(OpOf(cfg, k, p)) && p !in k.wait
    ensures DeadlineOf(cfg, k, p) == Some(DeadlineAt(cfg, k, p))
    ensures var r := StepTask(cfg, k, p);
      && r.sb.sent == k.sb.sent && r.now == k.now && p in r.hist
      && (|HistOf(r, p)| == |HistOf(k, p)| ==>
            r.cur.None? && r.ready == k.ready && r.finished == k.finished && r.hist == k.hist
            && p in r.wait && TimerOf(r, p).arrival == DeadlineAt(cfg, k, p))
  {
    hide WfTime, WfLinks, WfWait, WfWakers, WfHeap, PollReceive, StepTask, Clock;
    NeverPastDeadline(cfg, k, p);
    OneReceive(cfg, k, p);
    ArmFrame(cfg, k, p);
    PollSends(Armed(cfg, k, p).sb, p, Senders(cfg, OpOf(cfg, k, p)), DeadlineOf(cfg, k, p), Blame(OpOf(cfg, k, p)));
  }

  /** The first poll returns at once, or parks the task until the deadline. */
  lemma FirstPollParks(cfg: Config, n: nat, p: PartyId)
    requires ValidConfig(cfg) && FirstPoll(cfg, n, p)
    ensures var k, r := Run(cfg, n), Run(cfg, n + 1);
      && p in cfg.parties && r == StepTask(cfg, k, p) && DeadlineOf(cfg, k, p) == Some(DeadlineAt(cfg, k, p))
      && (r.hist == k.hist ==> Parked(cfg, r, p, HistOf(k, p), DeadlineAt(cfg, k, p)))
      && r.sb.sent == k.sb.sent && r.now == k.now
  {
    hide Run, WfTime, WfLinks, WfWait, WfWakers, WfHeap, StepTask, DeadlineOf, DeadlineAt;
    WfAllAt(cfg, n);
    RunStep(cfg, n + 1);
    var k := Run(cfg, n);
    StepKeepsTasks(cfg, k);
    FirstPollFrame(cfg, k, p);
    assert !AllFinished(cfg, k);
  }

  /** How many packets of the link the party has received by step `n`. */
  ghost function Had(cfg: Config, n: int, l: Link): nat {
    |GotOn(Run(cfg, n).sb, l)|
  }

  /** As long as the receive has no result, nothing is received. */
  lemma NothingHad(cfg: Config, n: nat, m: nat, l: Link)
    requires ValidConfig(cfg) && l.recipient in cfg.parties
      && HistOf(Run(cfg, n), l.recipient) == HistOf(Run(cfg, m), l.recipient)
    ensures Had(cfg, n, l) == Had(cfg, m, l)
  {
    hide Run, Wf, GotFrom;
    HistoriesAt(cfg, n);
    HistoriesAt(cfg, m);
    assert LinkHistory(cfg, Run(cfg, n), l) && LinkHistory(cfg, Run(cfg, m), l);
    assert |PacketsGot(Run(cfg, n).sb, l)| == |PacketsGot(Run(cfg, m).sb, l)|;
  }

  /** No awaited packet that was not received before step `n` ever arrives before `x`. */
  ghost predicate NoneAwaitedBefore(cfg: Config, n: int, p: PartyId, x: Time) {
    forall q :: q in Senders(cfg, OpOf(cfg, Run(cfg, n), p)) ==> NoneBefore(cfg, Link(q, p), Had(cfg, n, Link(q, p)), x)
  }

  /**
   * What a timed receive first polled at step `n` may return when it is polled at step `r`. A packet is the oldest
   * one of its link that was not received before, has arrived by the deadline, and is returned at its
   * arrival, or at the first poll if it was there by then; in the first case no awaited packet arrives
   * sooner. A timeout comes exactly at the deadline, and no awaited packet ever arrives before it.
   */
  ghost predicate Rightly(cfg: Config, n: int, r: int, p: PartyId, res: Res) {
    var k, at := Run(cfg, n), Clock(Run(cfg, r).sb, p);
    match res
    case Got(q, packet) =>
      var l := Link(q, p);
      var sent, i := SentOn(Run(cfg, r).sb, l), Had(cfg, n, l);
      && q in Senders(cfg, OpOf(cfg, k, p)) && i < |sent| && packet == sent[i].packet
      && sent[i].arrival <= DeadlineAt(cfg, k, p) && at == Max(Clock(k.sb, p), sent[i].arrival)
      && (Clock(k.sb, p) < sent[i].arrival ==> NoneAwaitedBefore(cfg, n, p, sent[i].arrival))
    case TimedOut(blame) =>
      blame == Blame(OpOf(cfg, k, p)) && at == DeadlineAt(cfg, k, p) && NoneAwaitedBefore(cfg, n, p, at)
    case Done => false
  }

  /** At step `i` no packet is queued and nothing pending is due before `x`: then nothing awaited comes before `x`. */
  lemma NothingAwaitedSooner(cfg: Config, n: nat, i: nat, p: PartyId, x: Time)
    requires ValidConfig(cfg) && p in cfg.parties && HistOf(Run(cfg, i), p) == HistOf(Run(cfg, n), p)
    requires forall q :: q in Senders(cfg, OpOf(cfg, Run(cfg, n), p)) ==> Queue(Run(cfg, i).sb, Link(q, p)) == []
    requires (forall e :: e in Run(cfg, i).sb.events ==> x <= e.arrival) && x <= Run(cfg, i + 1).now
    requires Run(cfg, i + 1).sb.sent == Run(cfg, i).sb.sent
    ensures p in Run(cfg, n).hist && NoneAwaitedBefore(cfg, n, p, x)
  {
    hide Run, Wf, NoneBefore;
    forall q | q in Senders(cfg, OpOf(cfg, Run(cfg, n), p))
      ensures NoneBefore(cfg, Link(q, p), Had(cfg, n, Link(q, p)), x) {
      NothingHad(cfg, n, i, Link(q, p));
      NothingSooner(cfg, i, Link(q, p), x);
    }
  }

  /** A receive that its first poll resolves is rightly resolved. */
  lemma AtOnce(cfg: Config, n: nat, p: PartyId) returns (res: Res)
    requires ValidConfig(cfg) && FirstPoll(cfg, n, p) && Run(cfg, n + 1).hist != Run(cfg, n).hist
    ensures p in cfg.parties && HistOf(Run(cfg, n + 1), p) == HistOf(Run(cfg, n), p) + [res]
      && Rightly(cfg, n, n, p, res)
  {
    hide Run, WfTime, WfLinks, WfWait, WfWakers, WfHeap, StepTask, NoneAwaitedBefore;
    FirstPollParks(cfg, n, p);
    TimedPoll(cfg, n, p);
    WfAllAt(cfg, n);
    var k := Run(cfg, n);
    var ready := MinReady(k.sb, p, Senders(cfg, OpOf(cfg, k, p)));
    if ready.Some? {
      res := Got(ready.value, Queue(k.sb, Link(ready.value, p))[0]);
    } else {
      res := TimedOut(Blame(OpOf(cfg, k, p)));
      PendingIsLater(cfg, n, p);
      NothingAwaitedSooner(cfg, n, n, p, DeadlineAt(cfg, k, p));
    }
  }

  /** Nothing pending is due before the clock of a running task. */
  lemma PendingIsLater(cfg: Config, n: nat, p: PartyId)
    requires ValidConfig(cfg) && Active(Run(cfg, n), p)
    ensures Run(cfg, n).now == Clock(Run(cfg, n).sb, p) && forall e :: e in Run(cfg, n).sb.events ==>
      Clock(Run(cfg, n).sb, p) <= e.arrival
  {
    hide Run, WfTraces;
    TimeAt(cfg, n);
  }

  /** An event that decides a parked receive does so rightly. */
  lemma Later(cfg: Config, n: nat, i: nat, e: ScheduledEvent, p: PartyId) returns (res: Res)
    requires ValidConfig(cfg) && FirstPoll(cfg, n, p) && n <= i
    requires Parked(cfg, Run(cfg, i), p, HistOf(Run(cfg, n), p), DeadlineAt(cfg, Run(cfg, n), p))
    requires Pops(cfg, i, e) && Awaits(cfg, Run(cfg, i), p, e.link)
      && (e.kind.Delivery? || e.arrival == DeadlineAt(cfg, Run(cfg, n), p))
    ensures p in cfg.parties && Run(cfg, i + 2).cur == Some(p) && HistOf(Run(cfg, i + 2), p) == HistOf(Run(cfg, n), p)
    ensures HistOf(Run(cfg, i + 3), p) == HistOf(Run(cfg, n), p) + [res] && Rightly(cfg, n, i + 2, p, res)
  {
    hide Run, Wf, WfAll, StepTask, NoneAwaitedBefore, Pops, Parked, Woken;
    var h, deadline := HistOf(Run(cfg, n), p), DeadlineAt(cfg, Run(cfg, n), p);
    res := DecidedReturns(cfg, i, p, h, deadline, e);
    ThreeRun(cfg, i, p, h, deadline, e);
    ParkedFacts(cfg, i, p, h, deadline);
    TickSends(cfg, i, p, h, deadline, e);
    NothingAwaitedSooner(cfg, n, i, p, e.arrival);
    if e.kind.Delivery? {
      Delivers(cfg, n, i, e, p);
      ClockBefore(cfg, n, i, e, p);
    }
  }

  /** A tick sends nothing, and is at the instant of its event, the earliest of all pending. */
  lemma TickSends(cfg: Config, i: nat, p: PartyId, h: seq<Res>, deadline: Time, e: ScheduledEvent)
    requires ValidConfig(cfg) && Parked(cfg, Run(cfg, i), p, h, deadline) && Pops(cfg, i, e)
      && Awaits(cfg, Run(cfg, i), p, e.link)
    ensures Run(cfg, i + 1).sb.sent == Run(cfg, i + 2).sb.sent == Run(cfg, i).sb.sent
      && e.arrival <= Run(cfg, i + 1).now
    ensures forall f :: f in Run(cfg, i).sb.events ==> e.arrival <= f.arrival
  {
    hide Run, Wf, WfAll, StepTask, Parked, Pops, Awaits;
    ThreeRun(cfg, i, p, h, deadline, e);
  }

  /** The packet that a tick delivers to a parked receive is the oldest that was not received before. */
  lemma Delivers(cfg: Config, n: nat, i: nat, e: ScheduledEvent, p: PartyId)
    requires ValidConfig(cfg) && p in cfg.parties && HistOf(Run(cfg, i), p) == HistOf(Run(cfg, n), p)
    requires Idle(Run(cfg, i)) && IsNext(Run(cfg, i).sb, e) && e.kind.Delivery? && e.link.recipient == p
      && Queue(Run(cfg, i).sb, e.link) == []
    ensures var sent := SentOn(Run(cfg, i).sb, e.link);
      Had(cfg, n, e.link) < |sent| && e == EventOf(e.link, sent[Had(cfg, n, e.link)])
  {
    hide Run, Wf, WfTime, WfWait;
    WfAllAt(cfg, i);
    NothingHad(cfg, n, i, e.link);
    assert LinkOk(Run(cfg, i).sb, cfg.delay, e.link);
    NextOfLink(Run(cfg, i).sb, cfg.delay, e);
  }

  lemma ClockBefore(cfg: Config, n: nat, i: nat, e: ScheduledEvent, p: PartyId)
    requires ValidConfig(cfg) && n <= i && e in Run(cfg, i).sb.events
    ensures Clock(Run(cfg, n).sb, p) <= e.arrival
  {
    hide Run, WfTraces;
    TimeAt(cfg, n);
    TimeAt(cfg, i);
    NowIsMonotone(cfg, n, i);
  }

  /** The receive of a task that the first poll has parked. */
  lemma LaterInLife(cfg: Config, n: nat, m: nat, p: PartyId) returns (r: nat, res: Res)
    requires ValidConfig(cfg) && FirstPoll(cfg, n, p) && n < m && |HistOf(Run(cfg, m), p)| > |HistOf(Run(cfg, n), p)|
    requires Parked(cfg, Run(cfg, n + 1), p, HistOf(Run(cfg, n), p), DeadlineAt(cfg, Run(cfg, n), p))
    ensures p in cfg.parties && n <= r < m && Run(cfg, r).cur == Some(p)
      && HistOf(Run(cfg, r), p) == HistOf(Run(cfg, n), p)
    ensures HistOf(Run(cfg, r + 1), p) == HistOf(Run(cfg, n), p) + [res] && Rightly(cfg, n, r, p, res)
  {
    hide Run, Wf, Rightly, Parked, DeadlineAt, Pops, Awaits;
    var i, e := DecidingEvent(cfg, n + 1, m, p, HistOf(Run(cfg, n), p), DeadlineAt(cfg, Run(cfg, n), p));
    res := Later(cfg, n, i, e, p);
    r := i + 2;
  }

  lemma SomeLife(cfg: Config, n: nat, m: nat, p: PartyId) returns (r: nat, res: Res)
    requires ValidConfig(cfg) && FirstPoll(cfg, n, p) && n <= m && |HistOf(Run(cfg, m), p)| > |HistOf(Run(cfg, n), p)|
    ensures p in cfg.parties && n <= r < m && Run(cfg, r).cur == Some(p)
      && HistOf(Run(cfg, r), p) == HistOf(Run(cfg, n), p)
    ensures HistOf(Run(cfg, r + 1), p) == HistOf(Run(cfg, n), p) + [res] && Rightly(cfg, n, r, p, res)
  {
    hide Run, Wf, Rightly, Parked, DeadlineAt, StepTask, DeadlineOf;
    FirstPollParks(cfg, n, p);
    assert n < m;
    if Run(cfg, n + 1).hist != Run(cfg, n).hist {
      r := n;
      res := AtOnce(cfg, n, p);
    } else {
      r, res := LaterInLife(cfg, n, m, p);
    }
  }

  /**
   * The life of a timed receive. In every run in which the receive first polled at step `n` has come to
   * a result by step `m`, it did so in one poll, at some step r, with what it may rightly return.
   */
  lemma TimedReceiveLives(cfg: Config, n: nat, m: nat, p: PartyId) returns (r: nat)
    requires ValidConfig(cfg) && FirstPoll(cfg, n, p) && n <= m && |HistOf(Run(cfg, m), p)| > |HistOf(Run(cfg, n), p)|
    ensures p in cfg.parties && n <= r < m && Run(cfg, r).cur == Some(p)
      && HistOf(Run(cfg, r), p) == HistOf(Run(cfg, n), p)
    ensures var (h, g) := (HistOf(Run(cfg, n), p), HistOf(Run(cfg, m), p));
      h <= g && HistOf(Run(cfg, r + 1), p) == h + [g[|h|]] && Rightly(cfg, n, r, p, g[|h|])
  {
    hide Run, Wf, Rightly, Parked, DeadlineAt;
    var res;
    r, res := SomeLife(cfg, n, m, p);
    HistoryIsPrefix(cfg, r + 1, m, p);
  }

  lemma ArrivedBefore(cfg: Config, n: nat, r: nat, p: PartyId, q: PartyId, x: Time)
    requires ValidConfig(cfg) && p in Run(cfg, n).hist && q in Senders(cfg, OpOf(cfg, Run(cfg, n), p))
    requires var sent := SentOn(Run(cfg, r).sb, Link(q, p));
      Had(cfg, n, Link(q, p)) < |sent|
      && sent[Had(cfg, n, Link(q, p))].arrival < x
    ensures !NoneAwaitedBefore(cfg, n, p, x)
  {
    hide Run, Wf, Had;
    assert !NoneBefore(cfg, Link(q, p), Had(cfg, n, Link(q, p)), x);
  }

  lemma RightlyMeans(cfg: Config, n: nat, r: nat, p: PartyId, res: Res)
    requires ValidConfig(cfg) && p in Run(cfg, n).hist && IsTimed(OpOf(cfg, Run(cfg, n), p))
      && Rightly(cfg, n, r, p, res)
    ensures var k := Run(cfg, n);
      && (!NoneAwaitedBefore(cfg, n, p, DeadlineAt(cfg, k, p)) ==> res.Got?)
      && (NoneAwaitedBefore(cfg, n, p, DeadlineAt(cfg, k, p) + 1) ==> res == TimedOut(Blame(OpOf(cfg, k, p))))
  {
    hide Run, Wf, DeadlineAt, NoneAwaitedBefore, NoneBefore, Had;
    if res.Got? {
      ArrivedBefore(cfg, n, r, p, res.sender, DeadlineAt(cfg, Run(cfg, n), p) + 1);
    }
  }

  /**
   * So a packet that ever arrives before the deadline, of those not received before, makes the receive
   * return a packet; and if none ever arrives by the deadline it times out.
   */
  lemma InTimeOrTimedOut(cfg: Config, n: nat, m: nat, p: PartyId)
    requires ValidConfig(cfg) && FirstPoll(cfg, n, p) && n <= m && |HistOf(Run(cfg, m), p)| > |HistOf(Run(cfg, n), p)|
    ensures var (k, res) := (Run(cfg, n), HistOf(Run(cfg, m), p)[|HistOf(Run(cfg, n), p)|]);
      && (!NoneAwaitedBefore(cfg, n, p, DeadlineAt(cfg, k, p)) ==> res.Got?)
      && (NoneAwaitedBefore(cfg, n, p, DeadlineAt(cfg, k, p) + 1) ==> res == TimedOut(Blame(OpOf(cfg, k, p))))
  {
    hide Run, Wf, DeadlineAt, Rightly, NoneAwaitedBefore;
    var r := TimedReceiveLives(cfg, n, m, p);
    RightlyMeans(cfg, n, r, p, HistOf(Run(cfg, m), p)[|HistOf(Run(cfg, n), p)|]);
  }

  /** And it does come to a result, if the parties make boundedly many calls. */
  lemma TimedReceiveEnds(cfg: Config, bound: nat, n: nat, p: PartyId) returns (m: nat)
    requires ValidConfig(cfg) && Bounded(cfg, bound) && FirstPoll(cfg, n, p)
    ensures n <= m && p in cfg.parties && |HistOf(Run(cfg, m), p)| > |HistOf(Run(cfg, n), p)|
  {
    hide Run, Wf, WfAll, Halted, Bounded, Parked;
    FirstPollParks(cfg, n, p);
    m := HaltsFrom(cfg, bound, n);
    HistoryIsPrefix(cfg, n, m, p);
    if |HistOf(Run(cfg, m), p)| == |HistOf(Run(cfg, n), p)| {
      assert HistOf(Run(cfg, m), p) == HistOf(Run(cfg, n), p);
      WfAllAt(cfg, m);
      NotLeftOver(cfg, Run(cfg, m), p);
    }
  }
}
