/**
 * What a stale timer does to the receive it wakes: when it fires at the deadline of a live receive,
 * the receive returns what it returns without stale timers if and only if no packet it awaits is due
 * ahead of its own timer, whatever else is.
 */
module StaleVerdict {
  import opened Wrappers
  import opened SimTypes
  import opened SwitchboardSpec
  import opened Kernel
  import opened Causality
  import opened Links
  import opened Wakeups
  import opened Termination
  import opened Histories
  import opened TimedReceive
  import opened StaleTimers

  /** A packet that the receive of `p` awaits is due ahead of the receive's own timer. */
  ghost predicate PacketDue(cfg: Config, k: Sim, p: PartyId) {
    exists f :: f in k.sb.events && f.kind.Delivery? && Awaits(cfg, k, p, f.link) && Before(f, TimerOf(k, p))
  }

  /** `f` is the first such packet. */
  ghost predicate DueFirst(cfg: Config, k: Sim, p: PartyId, f: ScheduledEvent) {
    FirstPacket(cfg, k, f, p) && Before(f, TimerOf(k, p))
  }

  /** What the receive of `p` has to return if no stale timer fires: the first packet due, or a timeout. */
  ghost predicate Verdict(cfg: Config, k: Sim, p: PartyId, res: Res) {
    match res
    case Got(q, packet) => exists f :: DueFirst(cfg, k, p, f) && f.link.sender == q && f.kind.packet == packet
    case TimedOut(blame) => blame == Blame(OpOf(cfg, k, p)) && !PacketDue(cfg, k, p)
    case Done => false
  }

  /**
   * In the simulator that cancels timers `p`, with the results `h`, is parked at a timed receive whose
   * timer is `t`, and nothing is pending before the instant of `t`.
   */
  ghost predicate Waiting(cfg: Config, j: Sim, p: PartyId, h: seq<Res>, t: ScheduledEvent) {
    && WfAll(cfg, j) && Erase(j) == j
    && Blocked(cfg, j, p) && p in j.hist && HistOf(j, p) == h && p in j.wait && TimerOf(j, p) == t
    && (forall e :: e in j.sb.events ==> t.arrival <= e.arrival)
    && (Idle(j) || j.now == t.arrival)
  }

  lemma WaitingFacts(cfg: Config, j: Sim, p: PartyId, h: seq<Res>, t: ScheduledEvent)
    requires Waiting(cfg, j, p, h, t)
    ensures IsTimed(OpOf(cfg, j, p)) && t in j.sb.events && t.kind.Timer? && t.link.recipient == p
      && Awaits(cfg, j, p, t.link)
    ensures p in cfg.parties && !Halted(cfg, j)
    ensures t.seqNo < j.sb.nextSeq
  {
    hide WfTime, WfLinks, WfWakers;
    assert TimerPending(cfg, j, p);
  }

  // --- The calls of the others ---

  /** Between two ticks nothing can get ahead of a timer that is set for the present instant. */
  lemma CallKeepsWaiting(cfg: Config, j: Sim, p: PartyId, h: seq<Res>, t: ScheduledEvent)
    requires Waiting(cfg, j, p, h, t) && !Idle(j)
    ensures Waiting(cfg, Erase(Step(cfg, j)), p, h, t)
    ensures forall f :: f in Erase(Step(cfg, j)).sb.events && Before(f, t) ==> f in j.sb.events
    ensures forall f :: f in j.sb.events && f.kind.Delivery? ==> f in Erase(Step(cfg, j)).sb.events
  {
    hide WfTime, WfLinks, WfWait, WfWakers, StepTask;
    WaitingFacts(cfg, j, p, h, t);
    StepKeepsAll(cfg, j);
    EraseKeepsAll(cfg, Step(cfg, j));
    var r := Step(cfg, j);
    assert LiveEvents(Erase(r)) == LiveEvents(r);
    if j.cur.Some? {
      var q := j.cur.value;
      CallLeavesAlone(cfg, j, q, p);
      assert Clock(j.sb, q) == j.now by { ActiveIsNow(cfg, j, q); }
    }
  }

  lemma ActiveIsNow(cfg: Config, j: Sim, q: PartyId)
    requires WfAll(cfg, j) && Active(j, q)
    ensures Clock(j.sb, q) == j.now
  {
  }

  // --- The ticks ---

  lemma ElsewhereKeepsWaiting(cfg: Config, j: Sim, p: PartyId, h: seq<Res>, t: ScheduledEvent, e: ScheduledEvent)
    requires Waiting(cfg, j, p, h, t) && Idle(j) && IsNext(j.sb, e) && !Awaits(cfg, j, p, e.link)
    ensures Step(cfg, j) == Tick(j, e) && Waiting(cfg, Erase(Tick(j, e)), p, h, t)
    ensures Erase(Tick(j, e)).sb.events == j.sb.events - {e}
  {
    hide WfTime, WfLinks, WfWait, WfWakers;
    WaitingFacts(cfg, j, p, h, t);
    NextIsUnique(j.sb, e);
    TickVerdict(cfg, j, e, p);
    StepKeepsAll(cfg, j);
    EraseKeepsAll(cfg, Step(cfg, j));
    assert LiveEvents(j) == j.sb.events;
    assert LiveEvents(Tick(j, e)) == Tick(j, e).sb.events;
    NowAfter(cfg, j, e);
  }

  lemma NowAfter(cfg: Config, j: Sim, e: ScheduledEvent)
    requires WfAll(cfg, j) && Idle(j) && IsNext(j.sb, e)
    ensures Tick(j, e).now == e.arrival
  {
  }

  /** The tick and the dispatch of a task that an event wakes cancel nothing. */
  lemma NothingCancelled(cfg: Config, j: Sim, p: PartyId, h: seq<Res>, t: ScheduledEvent, e: ScheduledEvent)
    requires Waiting(cfg, j, p, h, t) && Idle(j) && IsNext(j.sb, e) && Awaits(cfg, j, p, e.link)
    ensures e.link in j.sb.parked && Woken(j, e).cur == Some(p) && p in cfg.parties
    ensures Step(cfg, j) == Tick(j, e) && Erase(Tick(j, e)) == Tick(j, e) && Erase(Woken(j, e)) == Woken(j, e)
    ensures Tick(j, e).cur.None? && Tick(j, e).ready != [] && p !in j.finished
  {
    hide WfTime, WfLinks, WfWait, WfWakers, StepTask;
    WaitingFacts(cfg, j, p, h, t);
    NextIsUnique(j.sb, e);
    TickVerdict(cfg, j, e, p);
    assert LiveEvents(j) == j.sb.events;
    assert LiveEvents(Tick(j, e)) == Tick(j, e).sb.events;
    assert LiveEvents(Woken(j, e)) == Woken(j, e).sb.events;
  }

  lemma WokenSteps(cfg: Config, a: Sim, p: PartyId)
    requires Wf(cfg, a) && a.cur.None? && a.ready != [] && p in cfg.parties && p !in a.finished
      && Dispatch(a).cur == Some(p)
    ensures Step(cfg, a) == Dispatch(a)
    ensures Wf(cfg, Dispatch(a)) && Step(cfg, Dispatch(a)) == StepTask(cfg, Dispatch(a), p)
  {
    hide StepTask, WfWakers;
    DispatchKeepsTasks(cfg, a);
  }

  /** An event that the receive awaits wakes `p`, and nothing is cancelled until `p` is polled. */
  lemma WokenInThree(cfg: Config, m: nat, p: PartyId, h: seq<Res>, t: ScheduledEvent, e: ScheduledEvent)
    requires ValidConfig(cfg) && Waiting(cfg, RunCancelling(cfg, m), p, h, t)
    requires var j := RunCancelling(cfg, m); Idle(j) && IsNext(j.sb, e) && Awaits(cfg, j, p, e.link)
    ensures e.link in RunCancelling(cfg, m).sb.parked && p in cfg.parties
    ensures RunCancelling(cfg, m + 1).hist == RunCancelling(cfg, m + 2).hist == RunCancelling(cfg, m).hist
    ensures RunCancelling(cfg, m + 3).hist == StepTask(cfg, Woken(RunCancelling(cfg, m), e), p).hist
  {
    hide RunCancelling, WfTime, WfLinks, WfWait, WfTasks, WfWakers, Waiting, StepTask, Step, IsNext, Awaits, Blocked;
    var j := RunCancelling(cfg, m);
    NothingCancelled(cfg, j, p, h, t, e);
    CancellingStep(cfg, m);
    CancellingStep(cfg, m + 1);
    CancellingStep(cfg, m + 2);
    WokenSteps(cfg, RunCancelling(cfg, m + 1), p);
  }

  /** The result it then comes to is the verdict. */
  lemma AwaitedEventDecides(cfg: Config, j: Sim, p: PartyId, h: seq<Res>, t: ScheduledEvent, e: ScheduledEvent)
        returns (res: Res)
    requires Waiting(cfg, j, p, h, t) && Idle(j) && IsNext(j.sb, e) && Awaits(cfg, j, p, e.link)
    ensures e.link in j.sb.parked && p in cfg.parties
    ensures StepTask(cfg, Woken(j, e), p).hist == j.hist[p := h + [res]] && Verdict(cfg, j, p, res)
  {
    hide WfAll, StepTask, Woken;
    WaitingFacts(cfg, j, p, h, t);
    TickVerdict(cfg, j, e, p);
    if e.kind.Delivery? {
      res := Got(e.link.sender, e.kind.packet);
      assert DueFirst(cfg, j, p, e);
    } else {
      res := TimedOut(Blame(OpOf(cfg, j, p)));
    }
  }

  /** The verdict is not affected by new events after the timer and by deliveries elsewhere. */
  lemma VerdictStands(cfg: Config, j: Sim, r: Sim, p: PartyId, res: Res)
    requires p in j.hist && p in j.wait && p in r.hist && p in r.wait && HistOf(r, p) == HistOf(j, p)
      && TimerOf(r, p) == TimerOf(j, p)
    requires forall f :: f in r.sb.events && Before(f, TimerOf(j, p)) ==> f in j.sb.events
    requires forall f :: f in j.sb.events && f.kind.Delivery? && Awaits(cfg, j, p, f.link) ==> f in r.sb.events
    requires Verdict(cfg, r, p, res)
    ensures Verdict(cfg, j, p, res)
  {
    if res.Got? {
      var f :| DueFirst(cfg, r, p, f) && f.link.sender == res.sender && f.kind.packet == res.packet;
      assert DueFirst(cfg, j, p, f);
    }
  }

  lemma StepWithinCancelling(cfg: Config, m: nat, p: PartyId)
    requires ValidConfig(cfg) && p in cfg.parties
    ensures p in RunCancelling(cfg, m).hist && p in RunCancelling(cfg, m + 1).hist
    ensures HistOf(RunCancelling(cfg, m), p) <= HistOf(RunCancelling(cfg, m + 1), p)
  {
    hide RunCancelling, WfTime, WfLinks, WfWait, Step, WfWakers;
    CancellingStep(cfg, m);
    StepGrows(cfg, RunCancelling(cfg, m), p);
  }

  lemma {:induction false} CancellingIsPrefix(cfg: Config, m: nat, i: nat, p: PartyId)
    requires ValidConfig(cfg) && p in cfg.parties && m <= i
    ensures p in RunCancelling(cfg, m).hist && p in RunCancelling(cfg, i).hist
    ensures HistOf(RunCancelling(cfg, m), p) <= HistOf(RunCancelling(cfg, i), p)
    decreases i
  {
    hide RunCancelling, WfAll;
    StepWithinCancelling(cfg, m, p);
    if m < i {
      CancellingIsPrefix(cfg, m, i - 1, p);
      StepWithinCancelling(cfg, i - 1, p);
    }
  }

  /** From a waiting state on, what the receive returns, when it does, is the verdict of that state. */
  lemma {:induction false} VerdictIsReturned(cfg: Config, m: nat, i: nat, p: PartyId, h: seq<Res>, t: ScheduledEvent)
    requires ValidConfig(cfg) && m <= i && Waiting(cfg, RunCancelling(cfg, m), p, h, t)
    requires p in RunCancelling(cfg, i).hist && |HistOf(RunCancelling(cfg, i), p)| > |h|
    ensures h <= HistOf(RunCancelling(cfg, i), p)
    ensures Verdict(cfg, RunCancelling(cfg, m), p, HistOf(RunCancelling(cfg, i), p)[|h|])
    decreases i - m
  {
    hide RunCancelling, Waiting, Verdict, WfAll, Step, Erase, StepTask, Woken;
    var j, r := RunCancelling(cfg, m), RunCancelling(cfg, m + 1);
    WaitingParts(cfg, j, p, h, t);
    WaitingFacts(cfg, j, p, h, t);
    CancellingStep(cfg, m);
    CancellingIsPrefix(cfg, m, i, p);
    assert m < i;
    var res := HistOf(RunCancelling(cfg, i), p)[|h|];
    if !Idle(j) {
      CallKeepsWaiting(cfg, j, p, h, t);
      VerdictIsReturned(cfg, m + 1, i, p, h, t);
      WaitingParts(cfg, r, p, h, t);
      VerdictStands(cfg, j, r, p, res);
    } else {
      var e := NextEvent(j.sb);
      if !Awaits(cfg, j, p, e.link) {
        ElsewhereKeepsWaiting(cfg, j, p, h, t, e);
        VerdictIsReturned(cfg, m + 1, i, p, h, t);
        WaitingParts(cfg, r, p, h, t);
        VerdictStands(cfg, j, r, p, res);
      } else {
        ThenReturned(cfg, m, i, p, h, t, e);
      }
    }
  }

  lemma ThenReturned(cfg: Config, m: nat, i: nat, p: PartyId, h: seq<Res>, t: ScheduledEvent, e: ScheduledEvent)
    requires ValidConfig(cfg) && m <= i && Waiting(cfg, RunCancelling(cfg, m), p, h, t)
    requires p in RunCancelling(cfg, i).hist && |HistOf(RunCancelling(cfg, i), p)| > |h|
    requires var j := RunCancelling(cfg, m); p in j.hist && Idle(j) && IsNext(j.sb, e) && Awaits(cfg, j, p, e.link)
    ensures p in RunCancelling(cfg, m).wait
      && Verdict(cfg, RunCancelling(cfg, m), p, HistOf(RunCancelling(cfg, i), p)[|h|])
  {
    hide RunCancelling, Waiting, Verdict, WfAll, Step, Erase, StepTask, Woken, IsNext, Awaits;
    var j := RunCancelling(cfg, m);
    WaitingParts(cfg, j, p, h, t);
    WokenInThree(cfg, m, p, h, t, e);
    var got := AwaitedEventDecides(cfg, j, p, h, t, e);
    assert i >= m + 3;
    CancellingIsPrefix(cfg, m + 3, i, p);
    assert HistOf(RunCancelling(cfg, m + 3), p) == h + [got];
  }

  lemma WaitingParts(cfg: Config, j: Sim, p: PartyId, h: seq<Res>, t: ScheduledEvent)
    requires Waiting(cfg, j, p, h, t)
    ensures p in j.hist && HistOf(j, p) == h && p in j.wait && TimerOf(j, p) == t && WfHeap(j.sb) && Wf(cfg, j)
  {
  }

  // --- The two simulators side by side ---

  /** In the simulator that cancels, the receive that a stale timer is about to resolve waits on. */
  lemma CoincidingWaits(cfg: Config, n: nat, m: nat, p: PartyId)
    requires ValidConfig(cfg) && Similar(cfg, Run(cfg, n), RunCancelling(cfg, m)) && Coincides(cfg, Run(cfg, n))
    requires p == NextEvent(Run(cfg, n).sb).link.recipient
    ensures var k := Run(cfg, n);
      p in cfg.parties && p in k.hist && p in k.wait && IsTimed(OpOf(cfg, k, p))
        && Waiting(cfg, RunCancelling(cfg, m), p, HistOf(k, p), TimerOf(k, p))
    ensures forall res :: Verdict(cfg, RunCancelling(cfg, m), p, res) ==> Verdict(cfg, Run(cfg, n), p, res)
  {
    hide Run, RunCancelling, WfTime, WfLinks, WfWait, WfWakers;
    WfAllAt(cfg, n);
    NoneLeft(cfg, m);
    var k, j := Run(cfg, n), RunCancelling(cfg, m);
    forall res | Verdict(cfg, j, p, res) ensures Verdict(cfg, k, p, res) {
      assert forall f :: f in k.sb.events && f.kind.Delivery? ==> f in LiveEvents(k);
    }
  }

  /** In the real run the stale timer makes the receive time out. */
  lemma StaleTimesOut(cfg: Config, n: nat, p: PartyId)
    requires ValidConfig(cfg) && Coincides(cfg, Run(cfg, n)) && p == NextEvent(Run(cfg, n).sb).link.recipient
    ensures p in Run(cfg, n).hist && p in Run(cfg, n + 3).hist
    ensures HistOf(Run(cfg, n + 3), p) == HistOf(Run(cfg, n), p) + [TimedOut(Blame(OpOf(cfg, Run(cfg, n), p)))]
  {
    hide Run, WfTime, WfLinks, Step, Similar, ThreeFrom, Tick;
    WfAllAt(cfg, n);
    var k := Run(cfg, n);
    var e := NextEvent(k.sb);
    ParkedOnAll(cfg, k, p);
    RunThree(cfg, n);
    TheThree(cfg, k, e, p, Run(cfg, n + 1), Run(cfg, n + 2), Run(cfg, n + 3));
  }

  /** What the real run gives the receive is what the cancelling one does unless a packet is due. */
  lemma SameUnlessDue(cfg: Config, k: Sim, p: PartyId, res: Res)
    requires p in k.hist && p in k.wait && Verdict(cfg, k, p, res)
    ensures res == TimedOut(Blame(OpOf(cfg, k, p))) <==> !PacketDue(cfg, k, p)
    ensures PacketDue(cfg, k, p) ==> exists f :: DueFirst(cfg, k, p, f) && res == Got(f.link.sender, f.kind.packet)
  {
    if res.Got? {
      var f :| DueFirst(cfg, k, p, f) && f.link.sender == res.sender && f.kind.packet == res.packet;
      assert res == Got(f.link.sender, f.kind.packet);
    }
  }

  /**
   * When a stale timer fires at the deadline of a live receive, the receive times out. Without stale
   * timers it returns, once it does, the first packet it awaits that is due ahead of its own timer. So
   * its result is the same if and only if there is no such packet, whatever else is pending and whatever
   * the parties do.
   */
  lemma OvertakingDecides(cfg: Config, n: nat, m: nat, i: nat, p: PartyId)
    requires ValidConfig(cfg) && Similar(cfg, Run(cfg, n), RunCancelling(cfg, m)) && Coincides(cfg, Run(cfg, n))
    requires p == NextEvent(Run(cfg, n).sb).link.recipient
    requires m <= i && p in cfg.parties && |HistOf(RunCancelling(cfg, i), p)| > |HistOf(Run(cfg, n), p)|
    ensures var (k, late, h) := (Run(cfg, n), HistOf(Run(cfg, n + 3), p), HistOf(RunCancelling(cfg, i), p));
      && p in k.wait && late == HistOf(k, p) + [TimedOut(Blame(OpOf(cfg, k, p)))] && HistOf(k, p) <= h
      && (h[|HistOf(k, p)|] == late[|HistOf(k, p)|] <==> !PacketDue(cfg, k, p))
      && (PacketDue(cfg, k, p) ==> exists f ::
        DueFirst(cfg, k, p, f)
        && h[|HistOf(k, p)|] == Got(f.link.sender, f.kind.packet))
  {
    hide Run, RunCancelling, Verdict, PacketDue, Coincides, Similar, Wf, WfAll, Waiting, FirstPacket;
    CoincidingWaits(cfg, n, m, p);
    StaleTimesOut(cfg, n, p);
    var k := Run(cfg, n);
    CancellingIsPrefix(cfg, m, i, p);
    VerdictIsReturned(cfg, m, i, p, HistOf(k, p), TimerOf(k, p));
    SameUnlessDue(cfg, k, p, HistOf(RunCancelling(cfg, i), p)[|HistOf(k, p)|]);
  }

  /** The receive does come to its result in the simulator that cancels, if the parties make boundedly many calls. */
  lemma ReturnsInTime(cfg: Config, bound: nat, n: nat, m: nat, p: PartyId) returns (i: nat)
    requires ValidConfig(cfg) && Bounded(cfg, bound) && Similar(cfg, Run(cfg, n), RunCancelling(cfg, m))
      && Coincides(cfg, Run(cfg, n))
    requires p == NextEvent(Run(cfg, n).sb).link.recipient
    ensures m <= i && p in cfg.parties && |HistOf(RunCancelling(cfg, i), p)| > |HistOf(Run(cfg, n), p)|
  {
    hide Run, RunCancelling, Verdict, Coincides, Similar, Halted, WfTime, WfLinks, WfWait, WfWakers, Bounded;
    CoincidingWaits(cfg, n, m, p);
    i := CancellingHaltsFrom(cfg, bound, m);
    CancellingIsPrefix(cfg, m, i, p);
    var j, g := RunCancelling(cfg, m), RunCancelling(cfg, i);
    WaitingParts(cfg, j, p, HistOf(Run(cfg, n), p), TimerOf(Run(cfg, n), p));
    if |HistOf(g, p)| == |HistOf(j, p)| {
      assert HistOf(g, p) == HistOf(j, p);
      NotLeftOver(cfg, g, p);
    }
  }

  /** The first state of the run in which a stale timer gets ahead of a live event at a live deadline. */
  ghost predicate OvertakesFirst(cfg: Config, n: int) {
    Overtakes(cfg, Run(cfg, n)) && forall i: nat :: i < n ==> !Overtakes(cfg, Run(cfg, i))
  }

  /** Up to there the two simulators are alike, at every idle tick. */
  lemma AlikeBefore(cfg: Config, n: nat, a: nat, b: nat) returns (m: nat)
    requires ValidConfig(cfg) && a <= n && Similar(cfg, Run(cfg, a), RunCancelling(cfg, b)) && Idle(Run(cfg, n))
    requires forall i: nat :: i < n ==> !Overtakes(cfg, Run(cfg, i))
    ensures Similar(cfg, Run(cfg, n), RunCancelling(cfg, m))
    decreases n - a
  {
    hide Run, RunCancelling, Similar, Wf, WfAll, Coincides, Overtakes;
    if a == n {
      m := b;
    } else if !PopsStale(cfg, Run(cfg, a)) {
      NextMatches(cfg, a, b + 1);
      m := AlikeBefore(cfg, n, a + 1, b + 1);
    } else if Coincides(cfg, Run(cfg, a)) {
      PopInstead(cfg, a, b);
      m := AlikeBefore(cfg, n, a + 3, b + 3);
    } else {
      var c := PopStale(cfg, a, RunCancelling(cfg, b));
      m := AlikeBefore(cfg, n, c, b);
    }
  }

  /** A run that has ended has given the receive its result. */
  lemma EndedRunHas(cfg: Config, n: nat, a: nat, p: PartyId)
    requires ValidConfig(cfg) && Coincides(cfg, Run(cfg, n)) && Halted(cfg, Run(cfg, a)) && p in cfg.parties
    ensures HistOf(Run(cfg, n + 3), p) <= HistOf(Run(cfg, a), p)
  {
    hide Run, Wf, Halted;
    if a <= n {
      HaltedStays(cfg, a, n);
      assert false;
    } else if a < n + 3 {
      HaltedStays(cfg, a, n + 3);
    } else {
      HistoryIsPrefix(cfg, n + 3, a, p);
    }
  }

  lemma EndedCancellingHas(cfg: Config, n: nat, m: nat, b: nat, p: PartyId)
    requires ValidConfig(cfg) && Similar(cfg, Run(cfg, n), RunCancelling(cfg, m)) && Coincides(cfg, Run(cfg, n))
    requires p == NextEvent(Run(cfg, n).sb).link.recipient && Halted(cfg, RunCancelling(cfg, b))
    ensures m <= b && p in cfg.parties && |HistOf(RunCancelling(cfg, b), p)| > |HistOf(Run(cfg, n), p)|
  {
    hide Run, RunCancelling, Verdict, Coincides, Similar, Halted, WfTime, WfLinks, WfWait, WfWakers, Waiting;
    CoincidingWaits(cfg, n, m, p);
    var j, g := RunCancelling(cfg, m), RunCancelling(cfg, b);
    var h, t := HistOf(Run(cfg, n), p), TimerOf(Run(cfg, n), p);
    WaitingParts(cfg, j, p, h, t);
    WaitingFacts(cfg, j, p, h, t);
    if b < m { CancellingHaltedStays(cfg, b, m); }
    CancellingIsPrefix(cfg, m, b, p);
    if |HistOf(g, p)| == |HistOf(j, p)| {
      assert HistOf(g, p) == HistOf(j, p);
      NotLeftOver(cfg, g, p);
    }
  }

  /**
   * The first stale timer of a run that gets ahead of a live event, followed to the ends of both
   * simulators. In both the receive that the timer resolves has come to a result. The two results are
   * the same if and only if no packet that the receive awaits was due ahead of its own timer.
   */
  lemma FirstOvertakingDecides(cfg: Config, n: nat, p: PartyId, a: nat, b: nat)
    requires ValidConfig(cfg) && OvertakesFirst(cfg, n) && p == NextEvent(Run(cfg, n).sb).link.recipient
    requires Halted(cfg, Run(cfg, a)) && Halted(cfg, RunCancelling(cfg, b))
    ensures p in cfg.parties && p in Run(cfg, n).wait
    ensures var (g, h, c) := (HistOf(Run(cfg, a), p), HistOf(RunCancelling(cfg, b), p), |HistOf(Run(cfg, n), p)|);
      && c < |g| && c < |h| && g[..c] == h[..c] == HistOf(Run(cfg, n), p)
      && (g[c] == h[c] <==> !PacketDue(cfg, Run(cfg, n), p))
  {
    hide Run, RunCancelling, Verdict, PacketDue, Similar, Halted, Wf, WfAll, Waiting, FirstPacket, Coincides;
    OvertakesIdle(cfg, Run(cfg, n));
    StartSimilar(cfg);
    var m := AlikeBefore(cfg, n, 0, 0);
    CoincidingWaits(cfg, n, m, p);
    EndedRunHas(cfg, n, a, p);
    EndedCancellingHas(cfg, n, m, b, p);
    OvertakingDecides(cfg, n, m, b, p);
  }

  lemma OvertakesIdle(cfg: Config, k: Sim)
    requires Wf(cfg, k) && Overtakes(cfg, k)
    ensures Idle(k) && k.sb.events != {} && WfHeap(k.sb) && Coincides(cfg, k)
  {
  }

  /** The first time a stale timer gets ahead of live events, a packet that the receive of `p` awaits is among them. */
  ghost predicate OvertakesPacketFirst(cfg: Config, n: int, p: PartyId) {
    var k := Run(cfg, n);
    OvertakesFirst(cfg, n) && p == NextEvent(k.sb).link.recipient && p in k.hist && p in k.wait && PacketDue(cfg, k, p)
  }

  /** This is harm for good: the ends of the two simulators differ. */
  lemma OvertakingPacketsHarms(cfg: Config, n: nat, p: PartyId, a: nat, b: nat)
    requires ValidConfig(cfg) && OvertakesPacketFirst(cfg, n, p)
    requires Halted(cfg, Run(cfg, a)) && Halted(cfg, RunCancelling(cfg, b))
    ensures Run(cfg, a).hist != RunCancelling(cfg, b).hist
  {
    hide Run, RunCancelling, PacketDue, Halted, Wf, WfAll;
    FirstOvertakingDecides(cfg, n, p, a, b);
  }
}
