/**
 * Timers are never cancelled. This file compares the simulator with one that cancels the timer of
 * every timed receive as soon as it has resolved.
 */
module StaleTimers {
  import opened Wrappers
  import opened SimTypes
  import opened SwitchboardSpec
  import opened Kernel
  import opened Causality
  import opened Links
  import opened Wakeups
  import opened Termination
  import opened TimedReceive

  /** A timer whose receive is no longer pending. */
  predicate Stale(wait: map<PartyId, ScheduledEvent>, e: ScheduledEvent) {
    e.kind.Timer? && !(e.link.recipient in wait && wait[e.link.recipient] == e)
  }

  function LiveEvents(k: Sim): set<ScheduledEvent> {
    set e | e in k.sb.events && !Stale(k.wait, e)
  }

  function Erase(k: Sim): Sim { k.(sb := k.sb.(events := LiveEvents(k))) }

  lemma EraseKeepsWait(cfg: Config, k: Sim)
    requires Wf(cfg, k) && WfWait(cfg, k) && Wf(cfg, Erase(k))
    ensures WfWait(cfg, Erase(k))
  {
    hide WfHeap, WfWakers;
    var r := Erase(k);
    forall p | Blocked(cfg, r, p) ensures ParkedProperly(cfg, r, p) {
      assert Blocked(cfg, k, p) && ParkedProperly(cfg, k, p);
    }
    forall p | p in r.wait ensures TimerPending(cfg, r, p) {
      assert TimerPending(cfg, k, p);
    }
  }

  lemma EraseKeepsAll(cfg: Config, k: Sim)
    requires WfAll(cfg, k)
    ensures WfAll(cfg, Erase(k))
  {
    hide WfTime, WfLinks, WfWait;
    SameClocksErased(cfg, k);
    SameLinks(k.sb, Erase(k).sb, cfg.delay);
    EraseKeepsWait(cfg, k);
  }

  lemma SameClocksErased(cfg: Config, k: Sim)
    requires WfTime(cfg, k)
    ensures WfTime(cfg, Erase(k))
  {
    SameTraces(k.sb, Erase(k).sb);
    SameClocks(cfg, k, Erase(k));
  }

  lemma StepKeepsAll(cfg: Config, k: Sim)
    requires WfAll(cfg, k)
    ensures WfAll(cfg, Step(cfg, k))
  {
    hide Wf, WfTime, WfLinks, WfWait, Step;
    StepKeepsTime(cfg, k);
    StepKeepsLinks(cfg, k);
    StepKeepsWait(cfg, k);
  }

  /** The run of the simulator that cancels timers. */
  ghost function RunCancelling(cfg: Config, n: int): (k: Sim)
    ensures ValidConfig(cfg) ==> WfAll(cfg, k)
  {
    if n <= 0 then
      assert ValidConfig(cfg) ==> WfAll(cfg, Run(cfg, 0)) by {
        if ValidConfig(cfg) { WfAllAt(cfg, 0); }
      }
      Run(cfg, 0)
    else
      var k := RunCancelling(cfg, n - 1);
      assert WfAll(cfg, k) ==> WfAll(cfg, Erase(Step(cfg, k))) by {
        if WfAll(cfg, k) {
          StepKeepsAll(cfg, k);
          EraseKeepsAll(cfg, Step(cfg, k));
        }
      }
      Erase(Step(cfg, k))
  }

  /**
   * `k` has popped some stale timers that `j` never had: apart from these, and from the clocks of
   * idle tasks, the two are the same.
   */
  ghost predicate Similar(cfg: Config, k: Sim, j: Sim) {
    && j == k.(sb := k.sb.(events := LiveEvents(k), clocks := j.sb.clocks), now := j.now)
    && (forall p :: Clock(j.sb, p) <= Clock(k.sb, p))
    && (forall p :: Active(k, p) ==> Clock(j.sb, p) == Clock(k.sb, p))
    && j.now <= k.now
  }

  /** The next event of `k` is a stale timer. */
  ghost predicate PopsStale(cfg: Config, k: Sim) {
    !Halted(cfg, k) && Idle(k) && Stale(k.wait, NextEvent(k.sb))
  }

  /** A stale timer is about to fire at the deadline of a live receive that waits on its link. */
  ghost predicate Coincides(cfg: Config, k: Sim) {
    PopsStale(cfg, k) &&
    var e := NextEvent(k.sb);
    var p := e.link.recipient;
    Blocked(cfg, k, p) && Awaits(cfg, k, p, e.link) && p in k.wait && e.arrival == TimerOf(k, p).arrival
  }

  /** And it does so before another live event that is due ahead of the receive's own timer. */
  ghost predicate Overtakes(cfg: Config, k: Sim) {
    Coincides(cfg, k) && exists f :: f in LiveEvents(k) && Before(f, TimerOf(k, NextEvent(k.sb).link.recipient))
  }

  // --- Stale timers are skipped ---

  lemma SkipUnawaited(cfg: Config, k: Sim, j: Sim, e: ScheduledEvent)
    requires WfAll(cfg, k) && Similar(cfg, k, j) && Idle(k) && IsNext(k.sb, e) && Stale(k.wait, e)
    requires e.link !in k.sb.parked
    ensures Similar(cfg, Tick(k, e), j)
  {
    hide Wf, WfLinks, WfWait, WfTraces;
    var r := Tick(k, e);
    assert k.sb.parked - {e.link} == k.sb.parked;
    assert r.ready == [];
    assert LiveEvents(r) == LiveEvents(k);
    assert forall p :: Clock(k.sb, p) <= Clock(r.sb, p);
  }

  lemma ParkedOnAll(cfg: Config, k: Sim, p: PartyId)
    requires WfAll(cfg, k) && Blocked(cfg, k, p)
    ensures forall l :: l in LinksTo(p, Senders(cfg, OpOf(cfg, k, p))) ==> l in k.sb.parked && k.sb.parked[l] == p
    ensures forall q :: q in Senders(cfg, OpOf(cfg, k, p)) ==> Queue(k.sb, Link(q, p)) == []
    ensures IsReceive(OpOf(cfg, k, p)) && (IsTimed(OpOf(cfg, k, p)) ==> p in k.wait)
  {
    assert ParkedProperly(cfg, k, p);
  }

  lemma ClockBehind(cfg: Config, k: Sim, e: ScheduledEvent, p: PartyId)
    requires WfAll(cfg, k) && IsNext(k.sb, e)
    ensures Clock(k.sb, p) <= k.now <= e.arrival
  {
  }

  /** The state in which a task is polled that a timer has woken. */
  lemma WokenByTimer(cfg: Config, k: Sim, e: ScheduledEvent, p: PartyId)
    requires WfAll(cfg, k) && Idle(k) && IsNext(k.sb, e) && e.kind.Timer? && e.link in k.sb.parked
      && p == e.link.recipient
    ensures Blocked(cfg, k, p) && p in k.hist
    ensures Woken(k, e) == k.(
      sb := k.sb.(events := k.sb.events - {e}, clocks := k.sb.clocks[p := e.arrival], parked := k.sb.parked - {e.link}),
      cur := Some(p), now := e.arrival)
  {
    hide WfTime, WfLinks, WfWait, WfTraces, WfHeap;
    ClockBehind(cfg, k, e, p);
  }

  lemma AwaitedLink(cfg: Config, k: Sim, l: Link)
    requires Wf(cfg, k) && l in k.sb.parked
    ensures l.recipient in k.hist && l in LinksTo(l.recipient, Senders(cfg, OpOf(cfg, k, l.recipient)))
  {
  }

  /** The task woken by a stale timer finds nothing. */
  lemma WokenForNothing(cfg: Config, k: Sim, e: ScheduledEvent, p: PartyId)
    requires WfAll(cfg, k) && Idle(k) && IsNext(k.sb, e) && e.kind.Timer? && e.link in k.sb.parked
      && p == e.link.recipient
    requires p in k.wait ==> e.arrival != TimerOf(k, p).arrival
    ensures WfAll(cfg, Woken(k, e)) && p in cfg.parties && Woken(k, e).cur == Some(p) && p in Woken(k, e).hist
    ensures StepTask(cfg, Woken(k, e), p) ==
      k.(sb := k.sb.(events := k.sb.events - {e}, clocks := k.sb.clocks[p := e.arrival]), now := e.arrival)
  {
    hide WfTime, WfLinks, WfWait, WfHeap, WfTasks, WfWakers, StepTask, Woken, LinksTo;
    WokenByTimer(cfg, k, e, p);
    var w, op := Woken(k, e), OpOf(cfg, k, p);
    WokenState(cfg, k, e);
    ParkedOnAll(cfg, k, p);
    SpuriousPoll(cfg, w, p);
    AwaitedLink(cfg, k, e.link);
  }

  /** A stale timer on an awaited link wakes the task, which finds nothing and is parked again. */
  lemma SkipAwaited(cfg: Config, k: Sim, j: Sim, e: ScheduledEvent, p: PartyId)
    requires WfAll(cfg, k) && Similar(cfg, k, j) && Idle(k) && IsNext(k.sb, e) && Stale(k.wait, e)
    requires e.link in k.sb.parked && p == e.link.recipient
    requires p in k.wait ==> e.arrival != TimerOf(k, p).arrival
    ensures p in cfg.parties && p in Woken(k, e).hist && Similar(cfg, StepTask(cfg, Woken(k, e), p), j)
  {
    hide StepTask, Wf, WfLinks, WfWait, WfTraces;
    WokenForNothing(cfg, k, e, p);
    var r := StepTask(cfg, Woken(k, e), p);
    assert LiveEvents(r) == LiveEvents(k);
    assert Clock(k.sb, p) <= k.now <= e.arrival;
    assert forall q :: Clock(k.sb, q) <= Clock(r.sb, q);
  }

  lemma SpuriousPoll(cfg: Config, w: Sim, p: PartyId)
    requires WfAll(cfg, w) && w.cur == Some(p) && IsReceive(OpOf(cfg, w, p))
    requires forall q :: q in Senders(cfg, OpOf(cfg, w, p)) ==> Queue(w.sb, Link(q, p)) == []
    requires IsTimed(OpOf(cfg, w, p)) ==> p in w.wait && Clock(w.sb, p) != TimerOf(w, p).arrival
    ensures StepTask(cfg, w, p) == w.(sb := ParkAny(w.sb, p, Senders(cfg, OpOf(cfg, w, p))), cur := None)
  {
    OneReceive(cfg, w, p);
    if IsTimed(OpOf(cfg, w, p)) { assert TimerPending(cfg, w, p); }
    assert Armed(cfg, w, p) == w;
    assert MinReady(w.sb, p, Senders(cfg, OpOf(cfg, w, p))).None?;
  }

  // --- A stale timer in place of a live one ---

  /** A receive that is polled at its deadline, with nothing queued, times out. */
  lemma DeadlinePoll(cfg: Config, w: Sim, p: PartyId)
    requires WfAll(cfg, w) && w.cur == Some(p) && IsTimed(OpOf(cfg, w, p)) && p in w.wait
    requires forall q :: q in Senders(cfg, OpOf(cfg, w, p)) ==> Queue(w.sb, Link(q, p)) == []
    requires Clock(w.sb, p) == TimerOf(w, p).arrival
    ensures StepTask(cfg, w, p) ==
      Advance(w, p, UnparkAny(w.sb, p, Senders(cfg, OpOf(cfg, w, p))), TimedOut(Blame(OpOf(cfg, w, p))))
  {
    OneReceive(cfg, w, p);
    assert Armed(cfg, w, p) == w;
    assert MinReady(w.sb, p, Senders(cfg, OpOf(cfg, w, p))).None?;
  }

  /** The state in which the receive of `p` has timed out because `e` fired at its deadline. */
  function TimedOutBy(cfg: Config, k: Sim, e: ScheduledEvent, p: PartyId): Sim {
    var op := OpOf(cfg, k, p);
    var s := UnparkAny(k.sb, p, Senders(cfg, op)).(events := k.sb.events - {e}, clocks := k.sb.clocks[p := e.arrival]);
    Advance(k.(cur := Some(p), now := e.arrival), p, s, TimedOut(Blame(op)))
  }

  lemma WokenTimesOut(cfg: Config, k: Sim, e: ScheduledEvent, p: PartyId)
    requires WfAll(cfg, k) && Idle(k) && IsNext(k.sb, e) && e.kind.Timer? && e.link in k.sb.parked
      && p == e.link.recipient
    requires p in k.wait && e.arrival == TimerOf(k, p).arrival
    ensures WfAll(cfg, Woken(k, e)) && p in cfg.parties && Woken(k, e).cur == Some(p) && p in Woken(k, e).hist
      && p in k.hist
    ensures StepTask(cfg, Woken(k, e), p) == TimedOutBy(cfg, k, e, p)
  {
    hide WfTime, WfLinks, WfWait, WfHeap, WfWakers, StepTask, Woken, LinksTo;
    WokenByTimer(cfg, k, e, p);
    var w := Woken(k, e);
    WokenState(cfg, k, e);
    ParkedOnAll(cfg, k, p);
    DeadlinePoll(cfg, w, p);
    AwaitedLink(cfg, k, e.link);
    var links := LinksTo(p, Senders(cfg, OpOf(cfg, k, p)));
    assert k.sb.parked - {e.link} - links == k.sb.parked - links;
  }

  /** Whether a stale timer or its own made it time out, the receive has left the same behind. */
  lemma SameTimeout(cfg: Config, k: Sim, j: Sim, e: ScheduledEvent, p: PartyId)
    requires WfAll(cfg, k) && WfAll(cfg, j) && Similar(cfg, k, j) && Idle(k) && IsNext(k.sb, e) && Stale(k.wait, e)
    requires p in k.hist && p in k.wait && e.arrival == TimerOf(k, p).arrival && TimerOf(k, p).link.recipient == p
      && TimerOf(k, p).kind.Timer?
    ensures p in j.hist && Similar(cfg, TimedOutBy(cfg, k, e, p), Erase(TimedOutBy(cfg, j, TimerOf(k, p), p)))
  {
    hide Wf, WfLinks, WfWait, WfTraces;
    var t := TimerOf(k, p);
    var r, q := TimedOutBy(cfg, k, e, p), Erase(TimedOutBy(cfg, j, t, p));
    forall f ensures f in LiveEvents(r) <==> f in q.sb.events {
      if Stale(k.wait, f) { assert Stale(r.wait, f); }
    }
    assert LiveEvents(r) == q.sb.events;
    forall a ensures Clock(q.sb, a) <= Clock(r.sb, a) {
      assert Clock(j.sb, a) <= Clock(k.sb, a);
    }
  }

  /** Without other live events before it, the receive's own timer is the next event of the other simulator. */
  lemma OwnTimerIsNext(cfg: Config, k: Sim, j: Sim, e: ScheduledEvent, p: PartyId)
    requires WfAll(cfg, k) && Similar(cfg, k, j) && Coincides(cfg, k) && !Overtakes(cfg, k)
    requires e == NextEvent(k.sb) && p == e.link.recipient
    ensures p in k.wait && IsNext(j.sb, TimerOf(k, p)) && TimerOf(k, p).kind.Timer? && TimerOf(k, p).link.recipient == p
    ensures TimerOf(k, p).link in k.sb.parked && e.link in k.sb.parked
  {
    hide WfTime, WfLinks, WfWakers;
    var t := TimerOf(k, p);
    assert TimerPending(cfg, k, p);
    ParkedOnAll(cfg, k, p);
    assert t in LiveEvents(k);
    forall f | f in j.sb.events ensures f == t || Before(t, f) {
      assert !Before(f, t);
      assert f.seqNo == t.seqNo ==> f == t;
    }
  }

  // --- Everything else happens in both ---

  /** Two switchboards that differ in pending events and in the clocks of idle parties only. */
  predicate Twins(s: State, t: State) {
    t == s.(events := t.events, clocks := t.clocks)
  }

  /** The polls `u` and `v` had the same result, on twin switchboards that `s` and `t` have become. */
  predicate TwinPolls(u: (State, Option<Res>), v: (State, Option<Res>), s: State, t: State) {
    u.1 == v.1 && Twins(u.0, v.0)
    && u.0.events == s.events && u.0.clocks == s.clocks && v.0.events == t.events && v.0.clocks == t.clocks
  }

  lemma PollTwins(s: State, t: State, p: PartyId, senders: seq<PartyId>, deadline: Option<Time>, blame: Option<PartyId>)
    requires Twins(s, t) && Clock(s, p) == Clock(t, p)
    ensures TwinPolls(PollReceive(s, p, senders, deadline, blame), PollReceive(t, p, senders, deadline, blame), s, t)
  {
    hide PollReceive, TakePacket;
    SameReady(s, t, p, senders);
    var ready := MinReady(s, p, senders);
    if ready.Some? {
      PollTwinsReady(s, t, p, senders, deadline, blame);
    } else {
      PollTwinsNotReady(s, t, p, senders, deadline, blame);
    }
  }

  lemma ParkTwins(s: State, t: State, p: PartyId, senders: seq<PartyId>)
    requires Twins(s, t)
    ensures Twins(ParkAny(s, p, senders), ParkAny(t, p, senders))
      && Twins(UnparkAny(s, p, senders), UnparkAny(t, p, senders))
    ensures ParkAny(s, p, senders).events == s.events && ParkAny(s, p, senders).clocks == s.clocks
    ensures UnparkAny(s, p, senders).events == s.events && UnparkAny(s, p, senders).clocks == s.clocks
  {
  }

  lemma PollTwinsNotReady(s: State, t: State, p: PartyId, senders: seq<PartyId>, deadline: Option<Time>,
        blame: Option<PartyId>)
    requires Twins(s, t) && Clock(s, p) == Clock(t, p) && MinReady(s, p, senders).None? && MinReady(t, p, senders).None?
    ensures TwinPolls(PollReceive(s, p, senders, deadline, blame), PollReceive(t, p, senders, deadline, blame), s, t)
  {
    hide TakePacket, MinReady, ParkAny, UnparkAny, Twins, Clock;
    ParkTwins(s, t, p, senders);
    ParkTwins(t, t, p, senders);
  }

  lemma PollTwinsReady(s: State, t: State, p: PartyId, senders: seq<PartyId>, deadline: Option<Time>,
        blame: Option<PartyId>)
    requires Twins(s, t) && Clock(s, p) == Clock(t, p) && MinReady(s, p, senders).Some?
    requires MinReady(s, p, senders) == MinReady(t, p, senders)
    ensures TwinPolls(PollReceive(s, p, senders, deadline, blame), PollReceive(t, p, senders, deadline, blame), s, t)
  {
    hide TakePacket, MinReady;
    var a, b, l := UnparkAny(s, p, senders), UnparkAny(t, p, senders), Link(MinReady(s, p, senders).value, p);
    assert Clock(a, p) == Clock(b, p) && Queue(a, l) == Queue(s, l) == Queue(t, l);
    TakeTwins(a, b, l);
    assert PollReceive(s, p, senders, deadline, blame) == (TakePacket(a, l), Some(Got(l.sender, Queue(s, l)[0])));
    assert PollReceive(t, p, senders, deadline, blame) == (TakePacket(b, l), Some(Got(l.sender, Queue(t, l)[0])));
  }

  lemma TakeTwins(s: State, t: State, l: Link)
    requires Twins(s, t) && Clock(s, l.recipient) == Clock(t, l.recipient) && Queue(s, l) != []
    ensures Queue(t, l) == Queue(s, l)
    ensures TakePacket(t, l) == TakePacket(s, l).(events := t.events, clocks := t.clocks)
    ensures TakePacket(s, l).events == s.events && TakePacket(s, l).clocks == s.clocks
  {
  }

  /** A call that returns, with the events `added`; the timer of the call, if any, is now stale. */
  lemma AdvanceSimilar(cfg: Config, k: Sim, j: Sim, p: PartyId, s: State, t: State, res: Res,
        added: set<ScheduledEvent>)
    requires Similar(cfg, k, j) && k.cur == Some(p) && p in k.hist
    requires Twins(s, t) && s.clocks == k.sb.clocks && t.clocks == j.sb.clocks
    requires s.events == k.sb.events + added && t.events == j.sb.events + added
    ensures p in j.hist && Similar(cfg, Advance(k, p, s, res), Erase(Advance(j, p, t, res)))
  {
    var r, q := Advance(k, p, s, res), Erase(Advance(j, p, t, res));
    forall e ensures e in LiveEvents(r) <==> e in q.sb.events {
      if Stale(k.wait, e) { assert Stale(r.wait, e); }
    }
    assert LiveEvents(r) == q.sb.events;
    assert forall a :: Active(r, a) == Active(k, a);
    assert forall a :: Clock(r.sb, a) == Clock(k.sb, a) && Clock(q.sb, a) == Clock(j.sb, a);
  }

  lemma ArmSimilar(cfg: Config, k: Sim, j: Sim, p: PartyId)
    requires WfAll(cfg, k) && WfAll(cfg, j) && Similar(cfg, k, j) && k.cur == Some(p)
    ensures Similar(cfg, Armed(cfg, k, p), Armed(cfg, j, p))
    ensures DeadlineOf(cfg, k, p) == DeadlineOf(cfg, j, p)
  {
    hide WfTime, WfLinks, WfWait, WfTraces, WfWakers;
    var op := OpOf(cfg, k, p);
    assert Active(k, p);
    if IsTimed(op) && p !in k.wait {
      var a, b := Armed(cfg, k, p), Armed(cfg, j, p);
      var timer := ScheduledEvent(Clock(k.sb, p) + op.timeout, k.sb.nextSeq, Link(FirstOf(Senders(cfg, op)), p), Timer);
      assert a.sb == k.sb.(nextSeq := k.sb.nextSeq + 1, events := k.sb.events + {timer});
      assert b.sb == j.sb.(nextSeq := k.sb.nextSeq + 1, events := j.sb.events + {timer});
      assert a.wait == k.wait[p := timer] == b.wait;
      ArmedLive(k, p, timer);
      assert b.sb.events == LiveEvents(a);
      assert forall q :: Clock(a.sb, q) == Clock(k.sb, q) && Clock(b.sb, q) == Clock(j.sb, q);
    }
  }

  lemma ArmedLive(k: Sim, p: PartyId, timer: ScheduledEvent)
    requires p !in k.wait && timer.kind.Timer? && timer.link.recipient == p && WfHeap(k.sb)
      && timer.seqNo == k.sb.nextSeq
    ensures LiveEvents(k.(sb := k.sb.(nextSeq := k.sb.nextSeq + 1, events := k.sb.events + {timer}),
      wait := k.wait[p := timer]))
            == LiveEvents(k) + {timer}
  {
  }

  lemma ReceiveSimilar(cfg: Config, k: Sim, j: Sim, p: PartyId)
    requires WfAll(cfg, k) && WfAll(cfg, j) && Similar(cfg, k, j) && k.cur == Some(p) && IsReceive(OpOf(cfg, k, p))
    ensures p in cfg.parties && p in k.hist && p in j.hist
    ensures Similar(cfg, StepTask(cfg, k, p), Erase(StepTask(cfg, j, p)))
  {
    OneReceive(cfg, k, p);
    OneReceive(cfg, j, p);
    ArmSimilar(cfg, k, j, p);
    SettleSimilar(cfg, Armed(cfg, k, p), Armed(cfg, j, p), p, Senders(cfg, OpOf(cfg, k, p)), DeadlineOf(cfg, k, p),
      Blame(OpOf(cfg, k, p)));
  }

  lemma SettleSimilar(cfg: Config, k: Sim, j: Sim, p: PartyId, senders: seq<PartyId>, deadline: Option<Time>,
        blame: Option<PartyId>)
    requires Similar(cfg, k, j) && k.cur == Some(p) && p in k.hist
    ensures p in j.hist
    ensures Similar(cfg, Settle(k, p, PollReceive(k.sb, p, senders, deadline, blame)),
                    Erase(Settle(j, p, PollReceive(j.sb, p, senders, deadline, blame))))
  {
    assert Active(k, p);
    PollTwins(k.sb, j.sb, p, senders, deadline, blame);
    var u, v := PollReceive(k.sb, p, senders, deadline, blame), PollReceive(j.sb, p, senders, deadline, blame);
    hide PollReceive;
    if u.1.Some? {
      AdvanceSimilar(cfg, k, j, p, u.0, v.0, u.1.value, {});
    } else {
      var r, q := Settle(k, p, u), Settle(j, p, v);
      assert LiveEvents(r) == LiveEvents(k) && LiveEvents(q) == q.sb.events;
      assert forall a :: Clock(r.sb, a) == Clock(k.sb, a) && Clock(q.sb, a) == Clock(j.sb, a);
    }
  }

  lemma SendSimilar(cfg: Config, k: Sim, j: Sim, p: PartyId, l: Link, packet: Packet)
    requires Similar(cfg, k, j) && k.cur == Some(p) && p in k.hist && l.sender == p
    ensures p in j.hist
    ensures Similar(cfg, Advance(k, p, SendPacket(k.sb, cfg.delay, l, packet), Done),
      Erase(Advance(j, p, SendPacket(j.sb, cfg.delay, l, packet), Done)))
  {
    assert Active(k, p) && Clock(k.sb, p) == Clock(j.sb, p);
    var e := ScheduledEvent(ArrivalOf(k.sb, cfg.delay, l, packet), k.sb.nextSeq, l, Delivery(packet));
    AdvanceSimilar(cfg, k, j, p, SendPacket(k.sb, cfg.delay, l, packet), SendPacket(j.sb, cfg.delay, l, packet), Done,
      {e});
  }

  lemma CallSimilar(cfg: Config, k: Sim, j: Sim, p: PartyId)
    requires WfAll(cfg, k) && WfAll(cfg, j) && Similar(cfg, k, j) && k.cur == Some(p) && !IsReceive(OpOf(cfg, k, p))
    ensures p in cfg.parties && p in k.hist && p in j.hist
    ensures Similar(cfg, StepTask(cfg, k, p), Erase(StepTask(cfg, j, p)))
  {
    hide WfTime, WfLinks, WfWait, SendPacket, Advance, WfWakers;
    assert Active(k, p) && Clock(k.sb, p) == Clock(j.sb, p);
    match OpOf(cfg, k, p)
    case Send(to, packet) =>
      SendSimilar(cfg, k, j, p, Link(p, to), packet);
    case Record(mark) =>
      AdvanceSimilar(cfg, k, j, p, RecordMark(k.sb, p, mark), RecordMark(j.sb, p, mark), Done, {});
    case Finish =>
  }

  lemma DispatchSimilar(cfg: Config, k: Sim, j: Sim)
    requires Wf(cfg, k) && Similar(cfg, k, j) && k.cur.None? && k.ready != []
    ensures Similar(cfg, Dispatch(k), Erase(Dispatch(j)))
  {
    DispatchKeepsTasks(cfg, k);
    var r, q := Dispatch(k), Dispatch(j);
    assert LiveEvents(r) == LiveEvents(k) && LiveEvents(q) == q.sb.events;
  }

  lemma DeliverTwins(s: State, t: State, e: ScheduledEvent)
    requires Twins(s, t)
    ensures Deliver(t, e) == Deliver(s, e).(events := t.events - {e}, clocks := Deliver(t, e).clocks)
  {
  }

  /** A live event is the next one of both. */
  lemma TickSimilar(cfg: Config, k: Sim, j: Sim, e: ScheduledEvent)
    requires WfAll(cfg, k) && WfAll(cfg, j) && Similar(cfg, k, j) && Idle(k) && IsNext(k.sb, e) && !Stale(k.wait, e)
    ensures IsNext(j.sb, e) && Similar(cfg, Tick(k, e), Erase(Tick(j, e)))
  {
    var r, q := Tick(k, e), Erase(Tick(j, e));
    assert e in j.sb.events && j.now <= e.arrival && k.now <= e.arrival;
    assert LiveEvents(r) == LiveEvents(k) - {e} == q.sb.events;
    DeliverTwins(k.sb, j.sb, e);
    forall a ensures Clock(q.sb, a) <= Clock(r.sb, a) && (Active(r, a) ==> Clock(q.sb, a) == Clock(r.sb, a)) {
      TickWakes(cfg, k, e, a);
      TickClocks(cfg, k, j, e, a);
    }
  }

  lemma TickClocks(cfg: Config, k: Sim, j: Sim, e: ScheduledEvent, a: PartyId)
    requires WfTime(cfg, k) && WfTime(cfg, j) && Similar(cfg, k, j) && e in k.sb.events && e in j.sb.events
    ensures Clock(Tick(j, e).sb, a) <= Clock(Tick(k, e).sb, a)
    ensures a == e.link.recipient ==> Clock(Tick(j, e).sb, a) == Clock(Tick(k, e).sb, a) == e.arrival
  {
    var p := e.link.recipient;
    assert Clock(k.sb, p) <= k.now <= e.arrival && Clock(j.sb, p) <= j.now <= e.arrival;
    assert Clock(j.sb, a) <= Clock(k.sb, a);
  }

  // --- Whole runs ---

  /** As long as no stale timer is next, one step of each keeps the two simulators alike. */
  lemma StepSimilar(cfg: Config, k: Sim, j: Sim)
    requires WfAll(cfg, k) && WfAll(cfg, j) && Similar(cfg, k, j) && !PopsStale(cfg, k)
    ensures Similar(cfg, Step(cfg, k), Erase(Step(cfg, j)))
  {
    hide WfTime, WfLinks, WfWait;
    SimilarEnds(cfg, k, j);
    if Halted(cfg, k) {
    } else if k.cur.Some? {
      if IsReceive(OpOf(cfg, k, k.cur.value)) {
        ReceiveSimilar(cfg, k, j, k.cur.value);
      } else {
        CallSimilar(cfg, k, j, k.cur.value);
      }
    } else if k.ready != [] {
      DispatchSimilar(cfg, k, j);
    } else {
      TickSimilar(cfg, k, j, NextEvent(k.sb));
      NextIsUnique(j.sb, NextEvent(k.sb));
    }
  }

  lemma SimilarEnds(cfg: Config, k: Sim, j: Sim)
    requires WfAll(cfg, k) && Similar(cfg, k, j) && !PopsStale(cfg, k)
    ensures Halted(cfg, k) <==> Halted(cfg, j)
    ensures k.cur == j.cur && k.ready == j.ready && k.hist == j.hist && k.finished == j.finished
  {
    if !Halted(cfg, k) && Idle(k) {
      assert NextEvent(k.sb) in LiveEvents(k);
    }
  }

  ghost predicate NeverOvertakes(cfg: Config) {
    forall n: nat :: !Overtakes(cfg, Run(cfg, n))
  }

  /** After popping a stale timer, and parking again the task it may wake, the two are still alike. */
  lemma PopStale(cfg: Config, n: nat, j: Sim) returns (m: nat)
    requires ValidConfig(cfg) && Similar(cfg, Run(cfg, n), j) && PopsStale(cfg, Run(cfg, n))
      && !Coincides(cfg, Run(cfg, n))
    ensures n < m && Similar(cfg, Run(cfg, m), j)
    ensures Run(cfg, m).sb.events < Run(cfg, n).sb.events
    ensures m == n + 1 || (m == n + 3 && !Idle(Run(cfg, n + 1)) && !Idle(Run(cfg, n + 2)))
  {
    WfAllAt(cfg, n);
    var k := Run(cfg, n);
    var e := NextEvent(k.sb);
    hide Run, WfTime, WfLinks, WfWait, WfWakers, WfHeap, Step, StepTask, Similar;
    RunStep(cfg, n + 1);
    if e.link !in k.sb.parked {
      SkipUnawaited(cfg, k, j, e);
      m := n + 1;
    } else {
      var p := e.link.recipient;
      AwaitedIfParked(cfg, k, p, e.link);
      SkipAwaited(cfg, k, j, e, p);
      WokenForNothing(cfg, k, e, p);
      RunStep(cfg, n + 2);
      RunStep(cfg, n + 3);
      ThreeSteps(cfg, k, e, p);
      m := n + 3;
    }
  }

  /** A timer that wakes a task at its deadline: after three steps, to a, b and c, the task has timed out. */
  ghost predicate ThreeFrom(cfg: Config, k: Sim, a: Sim, b: Sim, c: Sim) {
    Wf(cfg, k) && Wf(cfg, a) && Wf(cfg, b) && a == Step(cfg, k) && b == Step(cfg, a) && c == Step(cfg, b)
  }

  /** A timer is about to wake a task at the deadline of its receive. */
  ghost predicate AtDeadline(cfg: Config, k: Sim, e: ScheduledEvent, p: PartyId) {
    && WfAll(cfg, k) && Idle(k) && !Halted(cfg, k) && IsNext(k.sb, e) && e.kind.Timer?
    && e.link in k.sb.parked && p == e.link.recipient && p in k.wait && e.arrival == TimerOf(k, p).arrival
  }

  /** The three steps are the tick, the dispatch and the poll. */
  lemma TheThree(cfg: Config, k: Sim, e: ScheduledEvent, p: PartyId, a: Sim, b: Sim, c: Sim)
    requires AtDeadline(cfg, k, e, p) && ThreeFrom(cfg, k, a, b, c)
    ensures a == Tick(k, e) && b == Woken(k, e) && p in k.hist && c == TimedOutBy(cfg, k, e, p)
    ensures !Idle(a) && !Idle(b)
  {
    hide WfTime, WfLinks, WfWait, WfWakers, StepTask, TimedOutBy;
    WokenTimesOut(cfg, k, e, p);
    AwaitedIfParked(cfg, k, p, e.link);
    NextIsUnique(k.sb, e);
    assert a == Tick(k, e);
    assert !AllFinished(cfg, a) && !AllFinished(cfg, Woken(k, e));
    assert b == Woken(k, e);
  }

  /** Cancelling changes nothing between the tick and the poll of the task it woke. */
  lemma NothingToErase(cfg: Config, j: Sim, t: ScheduledEvent, p: PartyId, a: Sim, b: Sim, c: Sim)
    requires AtDeadline(cfg, j, t, p) && ThreeFrom(cfg, j, a, b, c) && Erase(j) == j
    ensures Erase(a) == a && Erase(b) == b
  {
    hide WfAll, Wf, Step, StepTask, TimedOutBy;
    TheThree(cfg, j, t, p, a, b, c);
    assert LiveEvents(j) == j.sb.events;
    assert LiveEvents(a) == a.sb.events;
    assert LiveEvents(b) == b.sb.events;
  }

  lemma RunThree(cfg: Config, n: nat)
    requires ValidConfig(cfg)
    ensures ThreeFrom(cfg, Run(cfg, n), Run(cfg, n + 1), Run(cfg, n + 2), Run(cfg, n + 3))
  {
    hide Wf, Step;
    RunStep(cfg, n + 1);
    RunStep(cfg, n + 2);
    RunStep(cfg, n + 3);
  }

  /** Three steps of the cancelling simulator, when it has nothing to cancel after the first two. */
  lemma CancellingThree(cfg: Config, m: nat, t: ScheduledEvent, p: PartyId) returns (c: Sim)
    requires ValidConfig(cfg) && AtDeadline(cfg, RunCancelling(cfg, m), t, p)
    ensures p in RunCancelling(cfg, m).hist && c == TimedOutBy(cfg, RunCancelling(cfg, m), t, p)
    ensures RunCancelling(cfg, m + 3) == Erase(c)
  {
    hide RunCancelling, WfTime, WfLinks, WfWait, WfTasks, WfWakers, Step, Erase, TimedOutBy;
    var j := RunCancelling(cfg, m);
    NoneLeft(cfg, m);
    StepKeepsAll(cfg, j);
    var a := Step(cfg, j);
    StepKeepsAll(cfg, a);
    var b := Step(cfg, a);
    StepKeepsAll(cfg, b);
    c := Step(cfg, b);
    TheThree(cfg, j, t, p, a, b, c);
    NothingToErase(cfg, j, t, p, a, b, c);
    CancellingStep(cfg, m);
    CancellingStep(cfg, m + 1);
    CancellingStep(cfg, m + 2);
  }

  /** A stale timer that fires right before the receive's own: both simulators let the receive time out. */
  lemma PopInstead(cfg: Config, n: nat, m: nat)
    requires ValidConfig(cfg) && Similar(cfg, Run(cfg, n), RunCancelling(cfg, m))
    requires Coincides(cfg, Run(cfg, n)) && !Overtakes(cfg, Run(cfg, n))
    ensures !Idle(Run(cfg, n + 1)) && !Idle(Run(cfg, n + 2))
    ensures Similar(cfg, Run(cfg, n + 3), RunCancelling(cfg, m + 3))
    ensures Run(cfg, n + 3).sb.events < Run(cfg, n).sb.events
  {
    hide Run, RunCancelling, WfWakers, WfTime, WfLinks, WfWait, Step, Similar, Erase, Overtakes, ThreeFrom, Tick;
    WfAllAt(cfg, n);
    var k, j := Run(cfg, n), RunCancelling(cfg, m);
    var e := NextEvent(k.sb);
    var p := e.link.recipient;
    OwnTimerIsNext(cfg, k, j, e, p);
    SimilarFields(cfg, k, j);
    RunThree(cfg, n);
    TheThree(cfg, k, e, p, Run(cfg, n + 1), Run(cfg, n + 2), Run(cfg, n + 3));
    var c := CancellingThree(cfg, m, TimerOf(k, p), p);
    SameTimeout(cfg, k, j, e, p);
  }

  lemma SimilarFields(cfg: Config, k: Sim, j: Sim)
    requires WfAll(cfg, k) && WfAll(cfg, j) && Similar(cfg, k, j)
    ensures k.wait == j.wait && k.hist == j.hist && k.sb.parked == j.sb.parked && k.cur == j.cur && k.ready == j.ready
    ensures Erase(j) == j && (j.sb.events != {} ==> (Halted(cfg, k) <==> Halted(cfg, j)))
    ensures WfHeap(k.sb) && WfHeap(j.sb)
  {
  }

  lemma AwaitedIfParked(cfg: Config, k: Sim, p: PartyId, l: Link)
    requires Wf(cfg, k) && Idle(k) && l in k.sb.parked && l.recipient == p
    ensures Blocked(cfg, k, p) && Awaits(cfg, k, p, l)
  {
  }

  lemma ThreeSteps(cfg: Config, k: Sim, e: ScheduledEvent, p: PartyId)
    requires Wf(cfg, k) && Idle(k) && !Halted(cfg, k) && e == NextEvent(k.sb) && e.link in k.sb.parked
      && p == e.link.recipient
    requires Wf(cfg, Tick(k, e)) && Wf(cfg, Woken(k, e)) && Woken(k, e).cur == Some(p) && p in cfg.parties
      && p !in k.finished
    ensures Step(cfg, Step(cfg, Step(cfg, k))) == StepTask(cfg, Woken(k, e), p)
    ensures !Idle(Step(cfg, k)) && !Idle(Step(cfg, Step(cfg, k)))
  {
    hide Wf, StepTask;
    assert Step(cfg, k) == Tick(k, e);
    assert !AllFinished(cfg, Tick(k, e)) && !AllFinished(cfg, Woken(k, e));
    assert Step(cfg, Tick(k, e)) == Woken(k, e);
  }

  /** All stale timers that are next are popped, and the other simulator follows. */
  lemma CatchUp(cfg: Config, n: nat, m: nat) returns (i: nat, j: nat)
    requires ValidConfig(cfg) && NeverOvertakes(cfg) && Similar(cfg, Run(cfg, n), RunCancelling(cfg, m))
    ensures m <= j && Similar(cfg, Run(cfg, i), RunCancelling(cfg, j)) && !PopsStale(cfg, Run(cfg, i))
    decreases Run(cfg, n).sb.events
  {
    hide Run, RunCancelling, Similar, Wf, WfAll, Coincides, Overtakes;
    if !PopsStale(cfg, Run(cfg, n)) {
      i, j := n, m;
    } else if Coincides(cfg, Run(cfg, n)) {
      PopInstead(cfg, n, m);
      i, j := CatchUp(cfg, n + 3, m + 3);
    } else {
      var l := PopStale(cfg, n, RunCancelling(cfg, m));
      i, j := CatchUp(cfg, l, m);
    }
  }

  lemma StartSimilar(cfg: Config)
    requires ValidConfig(cfg)
    ensures Similar(cfg, Run(cfg, 0), RunCancelling(cfg, 0))
  {
    assert LiveEvents(Init(cfg)) == {};
  }

  /** From any point on, the cancelling simulator comes to a state that has its like in the real run. */
  lemma {:induction false} MatchingState(cfg: Config, m: nat) returns (n: nat, j: nat)
    requires ValidConfig(cfg) && NeverOvertakes(cfg)
    ensures m <= j && Similar(cfg, Run(cfg, n), RunCancelling(cfg, j)) && !PopsStale(cfg, Run(cfg, n))
  {
    hide Run, RunCancelling, Similar, Wf, WfAll;
    if m == 0 {
      StartSimilar(cfg);
      n, j := CatchUp(cfg, 0, 0);
    } else {
      n, j := MatchingState(cfg, m - 1);
      if j < m {
        NextMatches(cfg, n, m);
        n, j := CatchUp(cfg, n + 1, m);
      }
    }
  }

  lemma NextMatches(cfg: Config, n: nat, m: nat)
    requires ValidConfig(cfg) && m > 0 && !PopsStale(cfg, Run(cfg, n))
    requires Similar(cfg, Run(cfg, n), RunCancelling(cfg, m - 1))
    ensures Similar(cfg, Run(cfg, n + 1), RunCancelling(cfg, m))
  {
    hide Step, Wf, Similar;
    WfAllAt(cfg, n);
    StepSimilar(cfg, Run(cfg, n), RunCancelling(cfg, m - 1));
  }

  /** A run has only one end. */
  lemma OneEnd(cfg: Config, n: nat, m: nat)
    requires ValidConfig(cfg) && Halted(cfg, Run(cfg, n)) && Halted(cfg, Run(cfg, m))
    ensures Run(cfg, n) == Run(cfg, m)
  {
    hide Run, Halted;
    if n <= m { HaltedStays(cfg, n, m); } else { HaltedStays(cfg, m, n); }
  }

  /** The end of the run with cancellation is its end, too. */
  lemma {:induction false} CancellingHaltedStays(cfg: Config, m: nat, j: nat)
    requires ValidConfig(cfg) && Halted(cfg, RunCancelling(cfg, m)) && m <= j
    ensures RunCancelling(cfg, j) == RunCancelling(cfg, m)
    decreases j
  {
    hide RunCancelling, WfAll, Halted, Erase;
    if m < j {
      CancellingHaltedStays(cfg, m, j - 1);
      CancellingStep(cfg, j - 1);
      NoneLeft(cfg, j - 1);
    }
  }

  lemma NoneLeft(cfg: Config, m: nat)
    requires ValidConfig(cfg)
    ensures Erase(RunCancelling(cfg, m)) == RunCancelling(cfg, m)
  {
    hide Run, RunCancelling, Step, Wf, WfTime, WfLinks, WfWait;
    if m == 0 {
      StartSimilar(cfg);
    } else {
      CancellingStep(cfg, m - 1);
      var k := Step(cfg, RunCancelling(cfg, m - 1));
      assert LiveEvents(Erase(k)) == LiveEvents(k);
    }
  }

  /**
   * Stale timers are harmless: in a run where none of them fires at the deadline of a live receive on
   * the same link ahead of another live event, cancelling them would change no result of any call, no
   * trace with its timestamps, no stamp on a received packet, and not whether the run deadlocks.
   */
  lemma StaleTimersAreHarmless(cfg: Config, n: nat, m: nat)
    requires ValidConfig(cfg) && NeverOvertakes(cfg)
    requires Halted(cfg, Run(cfg, n)) && Halted(cfg, RunCancelling(cfg, m))
    ensures Run(cfg, n).hist == RunCancelling(cfg, m).hist
    ensures Run(cfg, n).sb.traces == RunCancelling(cfg, m).sb.traces
    ensures Run(cfg, n).sb.got == RunCancelling(cfg, m).sb.got
    ensures Run(cfg, n).finished == RunCancelling(cfg, m).finished
  {
    hide Run, RunCancelling, Wf, Halted;
    var i, j := MatchingState(cfg, m);
    CancellingHaltedStays(cfg, m, j);
    WfAllAt(cfg, i);
    SimilarEnds(cfg, Run(cfg, i), RunCancelling(cfg, m));
    OneEnd(cfg, n, i);
  }

  lemma CancellingStep(cfg: Config, n: nat)
    requires ValidConfig(cfg)
    ensures RunCancelling(cfg, n + 1) == Erase(Step(cfg, RunCancelling(cfg, n)))
  {
    hide Step, Erase, WfAll, Run;
  }

  /** A step with cancellation makes the measure smaller as well. */
  lemma CancellingDecreases(cfg: Config, bound: nat, n: nat)
    requires ValidConfig(cfg) && Bounded(cfg, bound) && !Halted(cfg, RunCancelling(cfg, n))
    ensures var (k, r) := (RunCancelling(cfg, n), RunCancelling(cfg, n + 1));
      var (w, v) := (Work(r, bound, cfg.parties), Work(k, bound, cfg.parties));
      w < v || (w == v && (|r.sb.events| < |k.sb.events| || (|r.sb.events| == |k.sb.events| && Queued(r) < Queued(k))))
  {
    hide RunCancelling, Step, Erase, Work, Queued, Halted, Bounded, WfTasks, WfTime, WfLinks, WfWait;
    CancellingStep(cfg, n);
    var k := RunCancelling(cfg, n);
    StepDecreases(cfg, bound, k);
    EraseSmaller(cfg, bound, Step(cfg, k));
  }

  lemma {:induction false} CancellingHaltsFrom(cfg: Config, bound: nat, n: nat) returns (m: nat)
    requires ValidConfig(cfg) && Bounded(cfg, bound)
    ensures n <= m && Halted(cfg, RunCancelling(cfg, m))
    decreases Work(RunCancelling(cfg, n), bound, cfg.parties), |RunCancelling(cfg, n).sb.events|,
      Queued(RunCancelling(cfg, n))
  {
    hide RunCancelling, Work, Queued, Halted, Bounded, WfAll;
    if Halted(cfg, RunCancelling(cfg, n)) {
      m := n;
    } else {
      CancellingDecreases(cfg, bound, n);
      m := CancellingHaltsFrom(cfg, bound, n + 1);
    }
  }

  lemma EraseSmaller(cfg: Config, bound: nat, r: Sim)
    requires WfTasks(cfg, r)
    ensures Work(Erase(r), bound, cfg.parties) == Work(r, bound, cfg.parties)
    ensures |Erase(r).sb.events| < |r.sb.events| || Erase(r).sb.events == r.sb.events
    ensures Queued(Erase(r)) == Queued(r)
  {
    WorkDrops(r, Erase(r), bound, cfg.parties, 0);
    WorkDrops(Erase(r), r, bound, cfg.parties, 0);
    FewerEvents(Erase(r).sb.events, r.sb.events);
  }

  lemma FewerEvents(a: set<ScheduledEvent>, b: set<ScheduledEvent>)
    requires a <= b
    ensures |a| < |b| || a == b
  {
    if a != b {
      assert |b - a| > 0;
      assert b == a + (b - a);
    }
  }

  /** The comparison is never empty: both simulators end on every protocol with boundedly many calls. */
  lemma CancellingMakesNoDifference(cfg: Config, bound: nat)
    requires ValidConfig(cfg) && NeverOvertakes(cfg) && Bounded(cfg, bound)
    ensures exists n, m ::
      && Halted(cfg, Run(cfg, n)) && Halted(cfg, RunCancelling(cfg, m))
      && Run(cfg, n).hist == RunCancelling(cfg, m).hist && Run(cfg, n).sb.traces == RunCancelling(cfg, m).sb.traces
  {
    hide Run, RunCancelling, Wf, Halted;
    var n := HaltsFrom(cfg, bound, 0);
    var m := CancellingHaltsFrom(cfg, bound, 0);
    StaleTimersAreHarmless(cfg, n, m);
  }

  /**
   * A stale timer makes a pending receive return if and only if it fires at the receive's own deadline;
   * and then the receive times out.
   */
  lemma StaleTimerResolves(cfg: Config, k: Sim, e: ScheduledEvent, p: PartyId)
    requires WfAll(cfg, k) && PopsStale(cfg, k) && e == NextEvent(k.sb)
    requires Blocked(cfg, k, p) && IsTimed(OpOf(cfg, k, p)) && Awaits(cfg, k, p, e.link)
    ensures e.link in k.sb.parked
    ensures ResultsAfter(cfg, k, e, p) != k.hist <==> Coincides(cfg, k)
    ensures Coincides(cfg, k) ==>
      ResultsAfter(cfg, k, e, p)
      == k.hist[p := HistOf(k, p) + [TimedOut(Blame(OpOf(cfg, k, p)))]]
  {
    WokenPoll(cfg, k, e, p);
    assert |HistOf(k, p) + [TimedOut(Blame(OpOf(cfg, k, p)))]| != |HistOf(k, p)|;
  }
}
