/** Receives under a deadline: what they return, and who wins when packet and deadline coincide. */
module TimedReceive {
  import opened Wrappers
  import opened SimTypes
  import opened SwitchboardSpec
  import opened Kernel
  import opened Causality
  import opened Links
  import opened Wakeups

  /** The link is one the current receive of `p` waits on. */
  predicate Awaits(cfg: Config, k: Sim, p: PartyId, l: Link) {
    l.recipient == p && l.sender in Senders(cfg, OpOf(cfg, k, p))
  }

  ghost predicate WfAll(cfg: Config, k: Sim) {
    Wf(cfg, k) && WfTime(cfg, k) && WfLinks(k.sb, cfg.delay) && WfWait(cfg, k)
  }

  lemma WfAllAt(cfg: Config, n: nat)
    requires ValidConfig(cfg)
    ensures WfAll(cfg, Run(cfg, n))
  {
    hide Run, Wf;
    TimeAt(cfg, n);
    LinksAt(cfg, n);
    WaitAt(cfg, n);
  }

  /** A pending timed receive is never polled past its deadline. */
  lemma NeverPastDeadline(cfg: Config, k: Sim, p: PartyId)
    requires WfAll(cfg, k) && k.cur == Some(p) && IsTimed(OpOf(cfg, k, p))
    ensures Clock(k.sb, p) <= DeadlineOf(cfg, k, p).value
    ensures p !in k.wait ==> DeadlineOf(cfg, k, p).value == Clock(k.sb, p) + OpOf(cfg, k, p).timeout
  {
    if p in k.wait { assert TimerPending(cfg, k, p); }
  }

  /**
   * A poll of a timed receive in any run. It returns a packet iff one is queued on an awaited link,
   * and then it is the oldest one of the lowest ready sender, which arrived no later than the
   * deadline. It times out iff nothing is queued and the clock is exactly at the deadline; a packet
   * that arrives later stays where it is. Otherwise the task is parked with nothing changed.
   */
  lemma TimedPoll(cfg: Config, n: nat, p: PartyId)
    requires ValidConfig(cfg) && Run(cfg, n).cur == Some(p) && IsTimed(OpOf(cfg, Run(cfg, n), p))
    ensures var k := Run(cfg, n);
      var r, deadline, ready := StepTask(cfg, k, p), DeadlineOf(cfg, k, p).value,
        MinReady(k.sb, p, Senders(cfg, OpOf(cfg, k, p)));
      if ready.Some? then
        var l, h := Link(ready.value, p), HistOf(k, p);
        && r.hist == k.hist[p := h + [Got(ready.value, Queue(k.sb, l)[0])]]
        && |GotOn(k.sb, l)| < |SentOn(k.sb, l)|
        && Queue(k.sb, l)[0] == SentOn(k.sb, l)[|GotOn(k.sb, l)|].packet
        && SentOn(k.sb, l)[|GotOn(k.sb, l)|].arrival <= Clock(k.sb, p) <= deadline
      else if Clock(k.sb, p) == deadline then
        && r.hist == k.hist[p := HistOf(k, p) + [TimedOut(Blame(OpOf(cfg, k, p)))]]
        && r.sb.queues == k.sb.queues
        && forall e: ScheduledEvent :: e in k.sb.events ==> e in r.sb.events
      else
        Clock(k.sb, p) < deadline && r.hist == k.hist && r.cur.None? && p in r.wait
  {
    hide Run;
    WfAllAt(cfg, n);
    var k := Run(cfg, n);
    PollInState(cfg, k, p);
  }

  lemma PollInState(cfg: Config, k: Sim, p: PartyId)
    requires WfAll(cfg, k) && k.cur == Some(p) && IsTimed(OpOf(cfg, k, p))
    ensures var r, deadline, ready := StepTask(cfg, k, p), DeadlineOf(cfg, k, p).value,
      MinReady(k.sb, p, Senders(cfg, OpOf(cfg, k, p)));
      if ready.Some? then
        var l, h := Link(ready.value, p), HistOf(k, p);
        && r.hist == k.hist[p := h + [Got(ready.value, Queue(k.sb, l)[0])]]
        && |GotOn(k.sb, l)| < |SentOn(k.sb, l)|
        && Queue(k.sb, l)[0] == SentOn(k.sb, l)[|GotOn(k.sb, l)|].packet
        && SentOn(k.sb, l)[|GotOn(k.sb, l)|].arrival <= Clock(k.sb, p) <= deadline
      else if Clock(k.sb, p) == deadline then
        && r.hist == k.hist[p := HistOf(k, p) + [TimedOut(Blame(OpOf(cfg, k, p)))]]
        && r.sb.queues == k.sb.queues
        && forall e: ScheduledEvent :: e in k.sb.events ==> e in r.sb.events
      else
        Clock(k.sb, p) < deadline && r.hist == k.hist && r.cur.None? && p in r.wait
  {
    NeverPastDeadline(cfg, k, p);
    OneReceive(cfg, k, p);
    ArmFrame(cfg, k, p);
    hide StepTask, WfTime, WfWakers, WfHeap, WfWait;
    var senders := Senders(cfg, OpOf(cfg, k, p));
    var ready := MinReady(k.sb, p, senders);
    SameReady(k.sb, Armed(cfg, k, p).sb, p, senders);
    if ready.Some? {
      var l := Link(ready.value, p);
      assert LinkOk(k.sb, cfg.delay, l);
      assert Queue(k.sb, l)[0] == SentOn(k.sb, l)[|GotOn(k.sb, l)| + 0].packet;
    }
  }

  lemma {:induction false} SameReady(s: State, t: State, p: PartyId, senders: seq<PartyId>)
    requires s.queues == t.queues
    ensures MinReady(s, p, senders) == MinReady(t, p, senders)
  {
    if senders != [] { SameReady(s, t, p, senders[1..]); }
  }

  /** The state in which a task woken by `e` is polled again. */
  function Woken(k: Sim, e: ScheduledEvent): Sim {
    Dispatch(Tick(k, e))
  }

  /**
   * One idle tick, seen from a task parked at a timed receive. An event elsewhere leaves it parked.
   * A packet on an awaited link is what it returns, stamped with the packet's arrival. A timer at
   * its deadline makes it time out at that instant; an earlier, stale one parks it again.
   */
  lemma TickVerdict(cfg: Config, k: Sim, e: ScheduledEvent, p: PartyId)
    requires WfAll(cfg, k) && Idle(k) && IsNext(k.sb, e)
    requires Blocked(cfg, k, p) && IsTimed(OpOf(cfg, k, p))
    ensures p in k.wait && e.arrival <= TimerOf(k, p).arrival
    ensures !Awaits(cfg, k, p, e.link) ==> Blocked(cfg, Tick(k, e), p) && Tick(k, e).hist == k.hist
    ensures Awaits(cfg, k, p, e.link) ==>
      && e.link in k.sb.parked && Woken(k, e).cur == Some(p) && Clock(Woken(k, e).sb, p) == e.arrival
      && StepTask(cfg, Woken(k, e), p).hist ==
         (if e.kind.Delivery? then k.hist[p := HistOf(k, p) + [Got(e.link.sender, e.kind.packet)]]
          else if e.arrival == TimerOf(k, p).arrival then k.hist[p := HistOf(k, p) + [TimedOut(Blame(OpOf(cfg, k, p)))]]
          else k.hist)
  {
    assert ParkedProperly(cfg, k, p) && TimerPending(cfg, k, p);
    if Awaits(cfg, k, p, e.link) {
      WokenPoll(cfg, k, e, p);
    }
  }

  /** What the woken task finds: the packet just delivered, or nothing. */
  lemma WokenFinds(cfg: Config, k: Sim, e: ScheduledEvent, p: PartyId)
    requires WfAll(cfg, k) && Idle(k) && IsNext(k.sb, e)
    requires Blocked(cfg, k, p) && IsTimed(OpOf(cfg, k, p)) && Awaits(cfg, k, p, e.link)
    ensures e.link in k.sb.parked && p in k.wait
    ensures Woken(k, e).cur == Some(p) && Clock(Woken(k, e).sb, p) == e.arrival
    ensures Woken(k, e).hist == k.hist && Woken(k, e).wait == k.wait
    ensures MinReady(Woken(k, e).sb, p, Senders(cfg, OpOf(cfg, k, p))) ==
      if e.kind.Delivery? then Some(e.link.sender) else None
    ensures e.kind.Delivery? ==> Queue(Woken(k, e).sb, e.link) == [e.kind.packet]
  {
    hide WfLinks, WfTraces, WfHeap, StepTask, WfWakers;
    assert ParkedProperly(cfg, k, p) && TimerPending(cfg, k, p);
    TickWakes(cfg, k, e, p);
    var w, senders := Woken(k, e), Senders(cfg, OpOf(cfg, k, p));
    assert Clock(k.sb, p) <= k.now <= e.arrival;
    assert forall q :: q in senders && Link(q, p) != e.link ==> Queue(w.sb, Link(q, p)) == [];
    assert Queue(k.sb, e.link) == [];
  }

  lemma WokenPoll(cfg: Config, k: Sim, e: ScheduledEvent, p: PartyId)
    requires WfAll(cfg, k) && Idle(k) && IsNext(k.sb, e)
    requires Blocked(cfg, k, p) && IsTimed(OpOf(cfg, k, p)) && Awaits(cfg, k, p, e.link)
    ensures e.link in k.sb.parked && p in k.wait && Woken(k, e).cur == Some(p) && Clock(Woken(k, e).sb, p) == e.arrival
    ensures StepTask(cfg, Woken(k, e), p).hist ==
      (if e.kind.Delivery? then k.hist[p := HistOf(k, p) + [Got(e.link.sender, e.kind.packet)]]
       else if e.arrival == TimerOf(k, p).arrival then k.hist[p := HistOf(k, p) + [TimedOut(Blame(OpOf(cfg, k, p)))]]
       else k.hist)
  {
    hide WfTime, WfLinks, WfWait, WfWakers, WfHeap, StepTask, Woken, MinReady, Queue, Clock;
    WokenFinds(cfg, k, e, p);
    WokenState(cfg, k, e);
    PollInState(cfg, Woken(k, e), p);
  }

  lemma WokenState(cfg: Config, k: Sim, e: ScheduledEvent)
    requires WfAll(cfg, k) && Idle(k) && IsNext(k.sb, e) && e.link in k.sb.parked
    ensures WfAll(cfg, Woken(k, e))
  {
    TickKeepsTime(cfg, k, e);
    TickKeepsWait(cfg, k, e);
    DeliverKeepsLinks(k.sb, cfg.delay, e);
    DispatchKeepsWait(cfg, Tick(k, e));
    DispatchKeepsTasks(cfg, Tick(k, e));
    var t := Tick(k, e);
    assert WfTime(cfg, Dispatch(t)) by { SameClocks(cfg, t, Dispatch(t)); }
  }

  /** The receive of `p` comes to a result at the tick that delivers `e`. */
  ghost predicate Resolves(cfg: Config, k: Sim, e: ScheduledEvent, p: PartyId) {
    Awaits(cfg, k, p, e.link) && (e.kind.Delivery? || e.arrival == TimerOf(k, p).arrival)
  }

  /** `f` is the packet that will arrive first on the links that `p` awaits. */
  ghost predicate FirstPacket(cfg: Config, k: Sim, f: ScheduledEvent, p: PartyId) {
    && f in k.sb.events && f.kind.Delivery? && Awaits(cfg, k, p, f.link)
    && forall g :: g in k.sb.events && g.kind.Delivery? && Awaits(cfg, k, p, g.link) ==> g == f || Before(f, g)
  }

  /** The results of all tasks once the task woken by `e` has been polled. */
  function ResultsAfter(cfg: Config, k: Sim, e: ScheduledEvent, p: PartyId): map<PartyId, seq<Res>> {
    StepTask(cfg, Woken(k, e), p).hist
  }

  /** Every timer on an awaited link that is set for the deadline of `p` was scheduled after `f`. */
  ghost predicate BeforeTimers(cfg: Config, k: Sim, f: ScheduledEvent, p: PartyId) {
    forall t :: t in k.sb.events && t.kind.Timer? && Awaits(cfg, k, p, t.link) && t.arrival == TimerOf(k, p).arrival ==>
      f.seqNo < t.seqNo
  }

  /**
   * The tie rule. At the tick that resolves a timed receive whose first packet arrives exactly at the
   * deadline, the packet is returned if and only if its sequence number is below those of all the
   * timers, live or stale, that are set for that instant on the awaited links.
   */
  lemma TieRule(cfg: Config, k: Sim, e: ScheduledEvent, p: PartyId, f: ScheduledEvent)
    requires WfAll(cfg, k) && Idle(k) && IsNext(k.sb, e)
    requires Blocked(cfg, k, p) && IsTimed(OpOf(cfg, k, p)) && p in k.wait && Resolves(cfg, k, e, p)
    requires FirstPacket(cfg, k, f, p) && f.arrival == TimerOf(k, p).arrival
    ensures e.link in k.sb.parked
    ensures ResultsAfter(cfg, k, e, p) == k.hist[p := HistOf(k, p) + [Got(f.link.sender, f.kind.packet)]] <==>
            BeforeTimers(cfg, k, f, p)
  {
    WokenPoll(cfg, k, e, p);
    hide WfTime, WfLinks, WfWait, StepTask;
    if e.kind.Delivery? {
      assert e == f || Before(f, e);
      forall t | t in k.sb.events && t.kind.Timer? ensures Before(f, t) {}
    } else {
      assert Before(e, f) && Awaits(cfg, k, p, e.link);
      assert !BeforeTimers(cfg, k, f, p);
      var got, out := HistOf(k, p) + [Got(f.link.sender, f.kind.packet)],
        HistOf(k, p) + [TimedOut(Blame(OpOf(cfg, k, p)))];
      assert got[|HistOf(k, p)|] != out[|HistOf(k, p)|];
      assert ResultsAfter(cfg, k, e, p)[p] == out;
    }
  }

  /** A task that is at a timed receive is not left over when a run has ended. */
  lemma NotLeftOver(cfg: Config, j: Sim, p: PartyId)
    requires WfAll(cfg, j) && p in cfg.parties && IsTimed(OpOf(cfg, j, p))
    ensures !Halted(cfg, j)
  {
    hide WfTime, WfLinks, WfWakers;
    if Blocked(cfg, j, p) {
      assert ParkedProperly(cfg, j, p) && TimerPending(cfg, j, p);
      assert j.sb.events != {};
    }
  }
}
