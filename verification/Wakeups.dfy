/** No lost wakeup, exact deadlock detection and termination of the executor loop. */
module Wakeups {
  import opened Wrappers
  import opened SimTypes
  import opened SwitchboardSpec
  import opened Kernel
  import opened Causality

  /** A parked task waits on links that are all empty, and each of them will wake it. */
  ghost predicate ParkedProperly(cfg: Config, k: Sim, p: PartyId) {
    var op := OpOf(cfg, k, p);
    && IsReceive(op)
    && (forall q :: q in Senders(cfg, op) ==> Queue(k.sb, Link(q, p)) == [] && Link(q, p) in k.sb.parked)
    && (IsTimed(op) ==> p in k.wait)
  }

  /** The timer of a pending timed receive is on the heap, unless it is what has just woken the task. */
  ghost predicate TimerPending(cfg: Config, k: Sim, p: PartyId) {
    var timer := TimerOf(k, p);
    && timer.kind.Timer? && timer.link.recipient == p
    && timer.link.sender in Senders(cfg, OpOf(cfg, k, p))
    && Clock(k.sb, p) <= timer.arrival
    && (timer in k.sb.events || (Active(k, p) && Clock(k.sb, p) == timer.arrival))
  }

  ghost predicate WfWait(cfg: Config, k: Sim) {
    && (forall p :: Blocked(cfg, k, p) ==> ParkedProperly(cfg, k, p))
    && (forall p :: p in k.wait ==> TimerPending(cfg, k, p))
  }

  /** The task that runs returns from a call: nothing changes for the others. */
  lemma AdvanceKeepsWait(cfg: Config, k: Sim, p: PartyId, sb: State, res: Res)
    requires Wf(cfg, k) && WfWait(cfg, k) && k.cur == Some(p) && Wf(cfg, Advance(k, p, sb, res))
    requires k.sb.events <= sb.events && sb.clocks == k.sb.clocks
    requires forall l: Link :: l.recipient != p ==>
      Queue(sb, l) == Queue(k.sb, l)
      && (l in k.sb.parked ==> l in sb.parked)
    ensures WfWait(cfg, Advance(k, p, sb, res))
  {
    var r := Advance(k, p, sb, res);
    assert forall q :: Active(r, q) == Active(k, q);
    forall q | Blocked(cfg, r, q) ensures ParkedProperly(cfg, r, q) {
      assert Blocked(cfg, k, q) && ParkedProperly(cfg, k, q);
    }
    forall q | q in r.wait ensures TimerPending(cfg, r, q) {
      assert TimerPending(cfg, k, q);
    }
  }

  lemma ArmKeepsWait(cfg: Config, k: Sim, p: PartyId)
    requires Wf(cfg, k) && WfWait(cfg, k) && k.cur == Some(p)
    ensures Wf(cfg, Armed(cfg, k, p)) && WfWait(cfg, Armed(cfg, k, p))
    ensures IsTimed(OpOf(cfg, k, p)) ==> p in Armed(cfg, k, p).wait
  {
    ArmKeeps(cfg, k, p);
    var r := Armed(cfg, k, p);
    if r != k {
      ArmSchedules(cfg, k, p);
      forall q | Blocked(cfg, r, q) ensures ParkedProperly(cfg, r, q) {
        assert Blocked(cfg, k, q) && ParkedProperly(cfg, k, q);
      }
      forall q | q in r.wait && q != p ensures TimerPending(cfg, r, q) {
        assert TimerPending(cfg, k, q);
      }
    }
  }

  lemma ArmSchedules(cfg: Config, k: Sim, p: PartyId)
    requires Wf(cfg, k) && k.cur == Some(p) && Armed(cfg, k, p) != k
    ensures var r := Armed(cfg, k, p);
      && r == k.(sb := r.sb, wait := r.wait) && r.sb == k.sb.(nextSeq := r.sb.nextSeq, events := r.sb.events)
      && k.sb.events <= r.sb.events
      && p in r.wait && TimerPending(cfg, r, p)
      && forall q :: q != p ==> (q in r.wait <==> q in k.wait) && (q in r.wait ==> TimerOf(r, q) == TimerOf(k, q))
  {
  }

  lemma TakeKeepsOthers(s: State, m: Link, l: Link)
    requires Queue(s, m) != []
    ensures var t := TakePacket(s, m);
      t.events == s.events && t.clocks == s.clocks && t.parked == s.parked && (l != m ==> Queue(t, l) == Queue(s, l))
  {
  }

  lemma ParkKeepsOthers(s: State, p: PartyId, senders: seq<PartyId>, l: Link)
    ensures forall t :: t == ParkAny(s, p, senders) || t == UnparkAny(s, p, senders) ==>
      && t.events == s.events && t.clocks == s.clocks && Queue(t, l) == Queue(s, l)
      && (l.recipient != p ==> (l in s.parked ==> l in t.parked))
  {
  }

  lemma PollKeepsOthers(s: State, p: PartyId, senders: seq<PartyId>, deadline: Option<Time>, blame: Option<PartyId>,
        l: Link)
    ensures var t := PollReceive(s, p, senders, deadline, blame).0;
      && t.events == s.events && t.clocks == s.clocks
      && (l.recipient != p ==> Queue(t, l) == Queue(s, l) && (l in s.parked ==> l in t.parked))
  {
    hide TakePacket, MinReady, ParkAny, UnparkAny, Queue;
    var ready := MinReady(s, p, senders);
    ParkKeepsOthers(s, p, senders, l);
    if ready.Some? {
      ParkKeepsOthers(s, p, senders, Link(ready.value, p));
      TakeKeepsOthers(UnparkAny(s, p, senders), Link(ready.value, p), l);
    }
  }

  /** A poll that finds nothing parks the task on every link it awaits. */
  lemma ParkKeepsWait(cfg: Config, k: Sim, p: PartyId)
    requires Wf(cfg, k) && WfWait(cfg, k) && k.cur == Some(p) && IsReceive(OpOf(cfg, k, p))
    requires IsTimed(OpOf(cfg, k, p)) ==> p in k.wait && Clock(k.sb, p) < TimerOf(k, p).arrival
    requires MinReady(k.sb, p, Senders(cfg, OpOf(cfg, k, p))).None?
    ensures var r := k.(sb := ParkAny(k.sb, p, Senders(cfg, OpOf(cfg, k, p))), cur := None);
      Wf(cfg, r) && WfWait(cfg, r)
  {
    ParkKeeps(cfg, k, p);
    var r := k.(sb := ParkAny(k.sb, p, Senders(cfg, OpOf(cfg, k, p))), cur := None);
    forall q | Blocked(cfg, r, q) ensures ParkedProperly(cfg, r, q) {
      if q != p { assert Blocked(cfg, k, q) && ParkedProperly(cfg, k, q); }
    }
    forall q | q in r.wait ensures TimerPending(cfg, r, q) {
      assert TimerPending(cfg, k, q);
    }
  }

  lemma ReceiveKeepsWait(cfg: Config, k: Sim, p: PartyId)
    requires Wf(cfg, k) && WfWait(cfg, k) && k.cur == Some(p) && IsReceive(OpOf(cfg, k, p))
    ensures Wf(cfg, StepTask(cfg, k, p)) && WfWait(cfg, StepTask(cfg, k, p))
  {
    hide StepTask, Wf, WfWait;
    ReceiveKeepsTasks(cfg, k, p);
    OneReceive(cfg, k, p);
    ArmKeepsWait(cfg, k, p);
    var armed, poll := Armed(cfg, k, p), PollOf(cfg, k, p);
    var op := OpOf(cfg, k, p);
    forall l: Link ensures poll.0.events == armed.sb.events && poll.0.clocks == armed.sb.clocks
    ensures l.recipient != p ==> Queue(poll.0, l) == Queue(armed.sb, l) && (l in armed.sb.parked ==> l in poll.0.parked)
    {
      PollKeepsOthers(armed.sb, p, Senders(cfg, op), DeadlineOf(cfg, k, p), Blame(op), l);
    }
    assert OpOf(cfg, armed, p) == op;
    if poll.1.Some? {
      AdvanceKeepsWait(cfg, armed, p, poll.0, poll.1.value);
    } else {
      ParkKeepsWait(cfg, armed, p);
    }
  }

  lemma CallKeepsWait(cfg: Config, k: Sim, p: PartyId)
    requires Wf(cfg, k) && WfWait(cfg, k) && k.cur == Some(p) && !IsReceive(OpOf(cfg, k, p))
    ensures Wf(cfg, StepTask(cfg, k, p)) && WfWait(cfg, StepTask(cfg, k, p))
  {
    CallKeepsTasks(cfg, k, p);
    match OpOf(cfg, k, p)
    case Send(to, packet) =>
      AdvanceKeepsWait(cfg, k, p, SendPacket(k.sb, cfg.delay, Link(p, to), packet), Done);
    case Record(mark) =>
      AdvanceKeepsWait(cfg, k, p, RecordMark(k.sb, p, mark), Done);
    case Finish =>
      var r := StepTask(cfg, k, p);
      forall q | Blocked(cfg, r, q) ensures ParkedProperly(cfg, r, q) {
        assert Blocked(cfg, k, q) && ParkedProperly(cfg, k, q);
      }
      forall q | q in r.wait ensures TimerPending(cfg, r, q) {
        assert TimerPending(cfg, k, q);
      }
  }

  lemma DispatchKeepsWait(cfg: Config, k: Sim)
    requires Wf(cfg, k) && WfWait(cfg, k) && k.cur.None? && k.ready != []
    ensures Wf(cfg, Dispatch(k)) && WfWait(cfg, Dispatch(k))
  {
    DispatchKeepsTasks(cfg, k);
    var r := Dispatch(k);
    forall q | Blocked(cfg, r, q) ensures ParkedProperly(cfg, r, q) {
      assert Blocked(cfg, k, q) && ParkedProperly(cfg, k, q);
    }
    forall q | q in r.wait ensures TimerPending(cfg, r, q) {
      assert TimerPending(cfg, k, q);
    }
  }

  /** An event either leaves a parked task parked on empty links, or makes it ready. */
  lemma TickKeepsWait(cfg: Config, k: Sim, e: ScheduledEvent)
    requires Wf(cfg, k) && WfWait(cfg, k) && Idle(k) && IsNext(k.sb, e)
    ensures Wf(cfg, Tick(k, e)) && WfWait(cfg, Tick(k, e))
  {
    TickKeepsTasks(cfg, k, e);
    var r := Tick(k, e);
    forall q | Blocked(cfg, r, q) ensures ParkedProperly(cfg, r, q) {
      assert Blocked(cfg, k, q) && ParkedProperly(cfg, k, q);
      assert e.link in k.sb.parked && e.link.recipient == q ==> q in r.ready;
    }
    forall q | q in r.wait ensures TimerPending(cfg, r, q) {
      TickKeepsTimer(cfg, k, e, q);
    }
  }

  lemma TickKeepsTimer(cfg: Config, k: Sim, e: ScheduledEvent, q: PartyId)
    requires Wf(cfg, k) && WfWait(cfg, k) && Idle(k) && IsNext(k.sb, e) && q in k.wait
    requires Wf(cfg, Tick(k, e))
    ensures TimerPending(cfg, Tick(k, e), q)
  {
    hide WfHeap, WfWakers;
    assert TimerPending(cfg, k, q);
    assert Blocked(cfg, k, q) && ParkedProperly(cfg, k, q);
    var r := Tick(k, e);
    if TimerOf(k, q) == e {
      TickWakes(cfg, k, e, q);
    }
  }

  lemma StepKeepsWait(cfg: Config, k: Sim)
    requires Wf(cfg, k) && WfWait(cfg, k)
    ensures Wf(cfg, Step(cfg, k)) && WfWait(cfg, Step(cfg, k))
  {
    if Halted(cfg, k) {
    } else if k.cur.Some? {
      if IsReceive(OpOf(cfg, k, k.cur.value)) {
        ReceiveKeepsWait(cfg, k, k.cur.value);
      } else {
        CallKeepsWait(cfg, k, k.cur.value);
      }
    } else if k.ready != [] {
      DispatchKeepsWait(cfg, k);
    } else {
      TickKeepsWait(cfg, k, NextEvent(k.sb));
    }
  }

  lemma {:induction false} WaitAt(cfg: Config, n: nat)
    requires ValidConfig(cfg)
    ensures WfWait(cfg, Run(cfg, n))
  {
    hide WfTasks, WfWakers, StepTask, Dispatch, Tick;
    if n > 0 {
      WaitAt(cfg, n - 1);
      StepKeepsWait(cfg, Run(cfg, n - 1));
    }
  }

  /**
   * No lost wakeup. At every idle tick each unfinished task is at a receive and parked: the links
   * that carry its waker are precisely the ones it awaits, nothing is queued on them, and if the
   * receive has a deadline its timer is on the heap and has not been passed.
   */
  lemma NoLostWakeup(cfg: Config, n: nat, p: PartyId)
    requires ValidConfig(cfg) && Idle(Run(cfg, n)) && p in cfg.parties && p !in Run(cfg, n).finished
    ensures var k := Run(cfg, n);
      && IsReceive(OpOf(cfg, k, p))
      && (forall l: Link :: l in k.sb.parked && k.sb.parked[l] == p <==>
            l.recipient == p && l.sender in Senders(cfg, OpOf(cfg, k, p)))
      && (forall q :: q in Senders(cfg, OpOf(cfg, k, p)) ==> Queue(k.sb, Link(q, p)) == [])
      && (IsTimed(OpOf(cfg, k, p)) ==>
            p in k.wait && TimerOf(k, p) in k.sb.events && Clock(k.sb, p) <= TimerOf(k, p).arrival)
  {
    WaitAt(cfg, n);
    var k := Run(cfg, n);
    assert Blocked(cfg, k, p) && ParkedProperly(cfg, k, p);
    if IsTimed(OpOf(cfg, k, p)) { assert TimerPending(cfg, k, p); }
  }

  /**
   * The panic is real: when it fires every remaining task is at a receive without a deadline, on
   * links with an empty queue, and nothing at all is in flight.
   */
  lemma PanicIsReal(cfg: Config, n: nat, p: PartyId)
    requires ValidConfig(cfg) && Deadlocked(cfg, Run(cfg, n)) && p in cfg.parties && p !in Run(cfg, n).finished
    ensures var k := Run(cfg, n); var op := OpOf(cfg, k, p);
      && IsReceive(op) && !IsTimed(op)
      && forall q :: q in Senders(cfg, op) ==> Queue(k.sb, Link(q, p)) == []
  {
    NoLostWakeup(cfg, n, p);
  }
}
