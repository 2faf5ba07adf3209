/**
 * The executor loop over the switchboard, as a deterministic small-step machine.
 *
 * One step is: one network call of the running task, taking the next task off the ready queue, or
 * one idle tick. `Run(cfg, n)` is the state after `n` steps, so the values of `Run` are exactly the
 * reachable states.
 */
module Kernel {
  import opened Wrappers
  import opened SimTypes
  import opened SwitchboardSpec

  /**
   * `hist` is what every task has received from the network so far, `wait` the timer of every timed
   * receive that is pending, and `now` the arrival of the last event taken off the heap.
   */
  datatype Sim = Sim(
    sb: State,
    hist: map<PartyId, seq<Res>>,
    wait: map<PartyId, ScheduledEvent>,
    ready: seq<PartyId>,
    cur: Option<PartyId>,
    finished: set<PartyId>,
    now: Time)

  predicate Distinct<T(==)>(s: seq<T>) {
    forall i, j :: 0 <= i < j < |s| ==> s[i] != s[j]
  }

  predicate ValidConfig(cfg: Config) { Distinct(cfg.parties) }

  predicate IsReceive(op: Op) {
    op.RecvFrom? || op.RecvAny? || op.RecvFromTimeout? || op.RecvAnyTimeout?
  }

  predicate IsTimed(op: Op) { op.RecvFromTimeout? || op.RecvAnyTimeout? }

  /** The receive waits on one link only. */
  predicate IsSingle(op: Op) { op.RecvFrom? || op.RecvFromTimeout? }

  /** The parties a receive waits for. */
  function Senders(cfg: Config, op: Op): seq<PartyId> {
    match op
    case RecvFrom(q) => [q]
    case RecvFromTimeout(q, _) => [q]
    case RecvAny => cfg.parties
    case RecvAnyTimeout(_) => cfg.parties
    case _ => []
  }

  /** Whom a timeout of this receive is blamed on. */
  function Blame(op: Op): Option<PartyId> {
    if op.RecvFromTimeout? then Some(op.source) else None
  }

  const NO_EVENT := ScheduledEvent(0, 0, Link(0, 0), Timer)

  /** The timer of the timed receive of `p`, if one is pending. */
  function TimerOf(k: Sim, p: PartyId): ScheduledEvent { if p in k.wait then k.wait[p] else NO_EVENT }

  /** What `p` has received from the network so far. */
  function HistOf(k: Sim, p: PartyId): seq<Res> { if p in k.hist then k.hist[p] else [] }

  function OpOf(cfg: Config, k: Sim, p: PartyId): Op { cfg.prog(p, HistOf(k, p)) }

  /** The task is running or about to run. */
  predicate Active(k: Sim, p: PartyId) { k.cur == Some(p) || p in k.ready }

  /** The task is parked. */
  predicate Blocked(cfg: Config, k: Sim, p: PartyId) {
    p in cfg.parties && p !in k.finished && !Active(k, p)
  }

  predicate AllFinished(cfg: Config, k: Sim) {
    forall p :: p in cfg.parties ==> p in k.finished
  }

  predicate Idle(k: Sim) { k.cur.None? && k.ready == [] }

  /** The executor panics here: tasks remain and there is nothing left to deliver. */
  predicate Deadlocked(cfg: Config, k: Sim) {
    Idle(k) && k.sb.events == {} && !AllFinished(cfg, k)
  }

  predicate Halted(cfg: Config, k: Sim) { AllFinished(cfg, k) || Deadlocked(cfg, k) }

  ghost predicate WfHeap(s: State) {
    && (forall e :: e in s.events ==> e.seqNo < s.nextSeq)
    && (forall e, f :: e in s.events && f in s.events && e.seqNo == f.seqNo ==> e == f)
  }

  ghost predicate WfTasks(cfg: Config, k: Sim) {
    && WfHeap(k.sb)
    && Distinct(k.ready)
    && (forall p :: p in k.hist <==> p in cfg.parties)
    && (forall p :: p in k.ready ==> p in cfg.parties && p !in k.finished && k.cur != Some(p))
    && (k.cur.Some? ==> k.cur.value in cfg.parties && k.cur.value !in k.finished)
    && (forall p :: p in k.finished ==> p in cfg.parties && OpOf(cfg, k, p).Finish?)
    && (forall p :: p in k.wait ==> p in cfg.parties && p !in k.finished && IsTimed(OpOf(cfg, k, p)))
  }

  /**
   * A parked waker belongs to the recipient of its link, which is at a receive on that link. The
   * wakers a receive leaves behind when another link woke it are all of a receive from anyone.
   */
  ghost predicate WfWakers(cfg: Config, k: Sim) {
    forall l :: l in k.sb.parked ==>
      && k.sb.parked[l] == l.recipient
      && l.recipient in cfg.parties
      && l.recipient !in k.finished
      && IsReceive(OpOf(cfg, k, l.recipient))
      && l.sender in Senders(cfg, OpOf(cfg, k, l.recipient))
      && (Active(k, l.recipient) ==> !IsSingle(OpOf(cfg, k, l.recipient)))
  }

  ghost predicate Wf(cfg: Config, k: Sim) { WfTasks(cfg, k) && WfWakers(cfg, k) }

  function Init(cfg: Config): Sim {
    Sim(EMPTY, map p | p in cfg.parties :: [], map[], cfg.parties, None, {}, 0)
  }

  /** The task's network call returned `res`. */
  function Advance(k: Sim, p: PartyId, sb: State, res: Res): Sim {
    k.(sb := sb, hist := k.hist[p := HistOf(k, p) + [res]], wait := k.wait - {p})
  }

  /** A receive was polled: it resolved, or the task is parked. */
  function Settle(k: Sim, p: PartyId, poll: (State, Option<Res>)): Sim {
    if poll.1.Some? then Advance(k, p, poll.0, poll.1.value) else k.(sb := poll.0, cur := None)
  }

  function FirstOf(senders: seq<PartyId>): PartyId { if senders == [] then 0 else senders[0] }

  /** The first poll of a timed receive fixes its deadline and schedules its timer. */
  function Arm(k: Sim, p: PartyId, link: Link, timeout: Time): Sim {
    if p in k.wait then k
    else
      var deadline := Clock(k.sb, p) + timeout;
      k.(sb := ScheduleTimer(k.sb, link, deadline),
         wait := k.wait[p := ScheduledEvent(deadline, k.sb.nextSeq, link, Timer)])
  }

  /** One network call of the running task. */
  function StepTask(cfg: Config, k: Sim, p: PartyId): Sim {
    match OpOf(cfg, k, p)
    case Send(to, packet) => Advance(k, p, SendPacket(k.sb, cfg.delay, Link(p, to), packet), Done)
    case Record(mark) => Advance(k, p, RecordMark(k.sb, p, mark), Done)
    case RecvFrom(q) => Settle(k, p, PollRecv(k.sb, Link(q, p)))
    case RecvAny => Settle(k, p, PollReceive(k.sb, p, cfg.parties, None, None))
    case RecvFromTimeout(q, timeout) =>
      var armed := Arm(k, p, Link(q, p), timeout);
      Settle(armed, p, PollRecvTimeout(armed.sb, Link(q, p), armed.wait[p].arrival))
    case RecvAnyTimeout(timeout) =>
      var armed := Arm(k, p, Link(FirstOf(cfg.parties), p), timeout);
      Settle(armed, p, PollReceive(armed.sb, p, cfg.parties, Some(armed.wait[p].arrival), None))
    case Finish => k.(finished := k.finished + {p}, cur := None)
  }

  /** The executor takes the next task id off the ready queue. */
  function Dispatch(k: Sim): Sim {
    if k.ready == [] then k
    else k.(ready := k.ready[1..], cur := if k.ready[0] in k.finished then None else Some(k.ready[0]))
  }

  /** An idle tick that delivers `e`. */
  function Tick(k: Sim, e: ScheduledEvent): Sim {
    k.(sb := Deliver(k.sb, e),
       ready := k.ready + if e.link in k.sb.parked then [k.sb.parked[e.link]] else [],
       now := Max(k.now, e.arrival))
  }

  lemma NextExists(s: State, events: set<ScheduledEvent>) returns (e: ScheduledEvent)
    requires WfHeap(s) && events <= s.events && events != {}
    ensures e in events && forall f :: f in events ==> e == f || Before(e, f)
  {
    e :| e in events;
    var rest := events - {e};
    if rest != {} {
      var f := NextExists(s, rest);
      assert forall g :: g in events ==> g == e || g in rest;
      if Before(f, e) { e := f; }
    } else {
      assert events == {e};
    }
  }

  /** The top of the heap, if there is one. */
  ghost function NextEvent(s: State): (e: ScheduledEvent)
    ensures WfHeap(s) && s.events != {} ==> IsNext(s, e)
  {
    assert WfHeap(s) && s.events != {} ==> exists e :: IsNext(s, e) by {
      if WfHeap(s) && s.events != {} {
        var e := NextExists(s, s.events);
        assert IsNext(s, e);
      }
    }
    if exists e :: IsNext(s, e) then
      var e :| IsNext(s, e);
      e
    else NO_EVENT
  }

  lemma NextIsUnique(s: State, e: ScheduledEvent)
    requires WfHeap(s) && IsNext(s, e)
    ensures NextEvent(s) == e
  {
    var f := NextEvent(s);
    assert e == f || (Before(e, f) && Before(f, e));
  }

  /** The state in which a timed receive of `p` is polled: its timer is scheduled. */
  function Armed(cfg: Config, k: Sim, p: PartyId): Sim {
    var op := OpOf(cfg, k, p);
    if IsTimed(op) then Arm(k, p, Link(FirstOf(Senders(cfg, op)), p), op.timeout) else k
  }

  /** The deadline under which the current receive of `p` is polled. */
  function DeadlineOf(cfg: Config, k: Sim, p: PartyId): Option<Time> {
    if IsTimed(OpOf(cfg, k, p)) then Some(Armed(cfg, k, p).wait[p].arrival) else None
  }

  /** The general poll, applied to the current receive of `p`. */
  function PollOf(cfg: Config, k: Sim, p: PartyId): (State, Option<Res>) {
    var op := OpOf(cfg, k, p);
    PollReceive(Armed(cfg, k, p).sb, p, Senders(cfg, op), DeadlineOf(cfg, k, p), Blame(op))
  }

  /** The four receive futures, as the executor polls them, are one and the same operation. */
  lemma OneReceive(cfg: Config, k: Sim, p: PartyId)
    requires Wf(cfg, k) && k.cur == Some(p) && IsReceive(OpOf(cfg, k, p))
    ensures StepTask(cfg, k, p) == Settle(Armed(cfg, k, p), p, PollOf(cfg, k, p))
  {
    var op := OpOf(cfg, k, p);
    if IsSingle(op) {
      var l := Link(op.source, p);
      assert l !in k.sb.parked;
      var armed := Armed(cfg, k, p);
      SingleLinkPoll(armed.sb, l, if IsTimed(op) then armed.wait[p].arrival else 0);
    }
  }

  ghost function Step(cfg: Config, k: Sim): (r: Sim) {
    if Halted(cfg, k) then k
    else if k.cur.Some? then StepTask(cfg, k, k.cur.value)
    else if k.ready != [] then Dispatch(k)
    else Tick(k, NextEvent(k.sb))
  }

  /** Returning a result keeps the task structure, once no waker of the task is left behind. */
  lemma AdvanceKeeps(cfg: Config, k: Sim, p: PartyId, sb: State, res: Res)
    requires Wf(cfg, k) && k.cur == Some(p) && WfHeap(sb)
    requires forall l :: l in sb.parked ==> l in k.sb.parked && sb.parked[l] == k.sb.parked[l] && l.recipient != p
    requires !OpOf(cfg, k, p).Finish?
    ensures Wf(cfg, Advance(k, p, sb, res))
  {
    var r := Advance(k, p, sb, res);
    forall q | q in cfg.parties && q != p ensures r.hist[q] == k.hist[q] {}
    assert WfTasks(cfg, r);
    assert forall q :: Active(r, q) == Active(k, q);
  }

  /** Arming a receive touches nothing but the heap and the task's own timer. */
  lemma ArmFrame(cfg: Config, k: Sim, p: PartyId)
    ensures var r := Armed(cfg, k, p);
      && r == k.(sb := r.sb, wait := r.wait)
      && r.sb == k.sb.(nextSeq := r.sb.nextSeq, events := r.sb.events)
  {
    var op := OpOf(cfg, k, p);
    if IsTimed(op) && p !in k.wait {
      var link := Link(FirstOf(Senders(cfg, op)), p);
      assert Armed(cfg, k, p).sb == ScheduleTimer(k.sb, link, Clock(k.sb, p) + op.timeout);
    }
  }

  lemma ArmKeeps(cfg: Config, k: Sim, p: PartyId)
    requires Wf(cfg, k) && k.cur == Some(p)
    ensures Wf(cfg, Armed(cfg, k, p))
    ensures Armed(cfg, k, p).sb.parked == k.sb.parked
    ensures Armed(cfg, k, p).sb.queues == k.sb.queues
  {
    var r := Armed(cfg, k, p);
    if r != k {
      assert r.wait.Keys == k.wait.Keys + {p};
      assert WfTasks(cfg, r);
      assert forall q :: Active(r, q) == Active(k, q);
    }
  }

  lemma ParkKeeps(cfg: Config, k: Sim, p: PartyId)
    requires Wf(cfg, k) && k.cur == Some(p) && IsReceive(OpOf(cfg, k, p))
    ensures Wf(cfg, k.(sb := ParkAny(k.sb, p, Senders(cfg, OpOf(cfg, k, p))), cur := None))
  {
  }

  lemma ReceiveKeepsTasks(cfg: Config, k: Sim, p: PartyId)
    requires Wf(cfg, k) && k.cur == Some(p) && IsReceive(OpOf(cfg, k, p))
    ensures Wf(cfg, StepTask(cfg, k, p))
  {
    OneReceive(cfg, k, p);
    ArmKeeps(cfg, k, p);
    var armed, poll := Armed(cfg, k, p), PollOf(cfg, k, p);
    if poll.1.Some? {
      AdvanceKeeps(cfg, armed, p, poll.0, poll.1.value);
    } else {
      ParkKeeps(cfg, armed, p);
    }
  }

  lemma CallKeepsTasks(cfg: Config, k: Sim, p: PartyId)
    requires Wf(cfg, k) && k.cur == Some(p) && !IsReceive(OpOf(cfg, k, p))
    ensures Wf(cfg, StepTask(cfg, k, p))
  {
    match OpOf(cfg, k, p)
    case Send(to, packet) =>
      AdvanceKeeps(cfg, k, p, SendPacket(k.sb, cfg.delay, Link(p, to), packet), Done);
    case Record(mark) =>
      AdvanceKeeps(cfg, k, p, RecordMark(k.sb, p, mark), Done);
    case Finish =>
  }

  lemma DispatchKeepsTasks(cfg: Config, k: Sim)
    requires Wf(cfg, k) && k.cur.None? && k.ready != []
    ensures Wf(cfg, Dispatch(k))
    ensures forall p :: Active(Dispatch(k), p) == Active(k, p)
  {
    var r := Dispatch(k);
    assert k.ready == [k.ready[0]] + r.ready;
    assert forall p :: Active(r, p) == Active(k, p);
  }

  /** An event makes at most its recipient ready. */
  lemma TickWakes(cfg: Config, k: Sim, e: ScheduledEvent, p: PartyId)
    requires Wf(cfg, k) && Idle(k)
    ensures Active(Tick(k, e), p) <==> e.link in k.sb.parked && p == e.link.recipient
  {
  }

  lemma TickKeepsShape(cfg: Config, k: Sim, e: ScheduledEvent)
    requires Wf(cfg, k) && Idle(k)
    ensures WfTasks(cfg, Tick(k, e))
  {
    var r := Tick(k, e);
    assert WfHeap(r.sb);
    hide WfHeap;
    assert e.link in k.sb.parked ==> r.ready == [e.link.recipient];
  }

  lemma TickKeepsTasks(cfg: Config, k: Sim, e: ScheduledEvent)
    requires Wf(cfg, k) && Idle(k)
    ensures Wf(cfg, Tick(k, e))
  {
    hide WfHeap, WfTasks, Active;
    var r := Tick(k, e);
    TickKeepsShape(cfg, k, e);
    forall l | l in r.sb.parked && Active(r, l.recipient)
      ensures !IsSingle(OpOf(cfg, r, l.recipient))
    {
      TickWakes(cfg, k, e, l.recipient);
    }
  }

  lemma StepKeepsTasks(cfg: Config, k: Sim)
    requires Wf(cfg, k)
    ensures Wf(cfg, Step(cfg, k))
  {
    if Halted(cfg, k) {
    } else if k.cur.Some? {
      if IsReceive(OpOf(cfg, k, k.cur.value)) {
        ReceiveKeepsTasks(cfg, k, k.cur.value);
      } else {
        CallKeepsTasks(cfg, k, k.cur.value);
      }
    } else if k.ready != [] {
      DispatchKeepsTasks(cfg, k);
    } else {
      TickKeepsTasks(cfg, k, NextEvent(k.sb));
    }
  }

  ghost function Run(cfg: Config, n: int): (k: Sim)
    ensures ValidConfig(cfg) ==> Wf(cfg, k) && forall p :: p in k.hist <==> p in cfg.parties
  {
    if n <= 0 then Init(cfg)
    else
      var k := Run(cfg, n - 1);
      assert Wf(cfg, k) ==> Wf(cfg, Step(cfg, k)) by {
        if Wf(cfg, k) { StepKeepsTasks(cfg, k); }
      }
      Step(cfg, k)
  }

  lemma RunStep(cfg: Config, n: nat)
    requires n > 0
    ensures Run(cfg, n) == Step(cfg, Run(cfg, n - 1))
  {
    hide Step, Wf;
  }

  // --- What a call of one party leaves to the others ---

  /** What a call of `q` leaves to the other parties; the events it adds are new and not in the past. */
  ghost predicate LeavesAlone(k: Sim, r: Sim, q: PartyId, p: PartyId) {
    && p in r.hist && HistOf(r, p) == HistOf(k, p) && r.now == k.now && r.ready == k.ready
      && (r.cur == k.cur || r.cur.None?)
    && (p in r.wait <==> p in k.wait) && (p in k.wait ==> TimerOf(r, p) == TimerOf(k, p))
      && (p in r.finished <==> p in k.finished)
    && k.sb.events <= r.sb.events
    && (forall e :: e in r.sb.events && e !in k.sb.events ==> k.sb.nextSeq <= e.seqNo && Clock(k.sb, q) <= e.arrival)
  }

  lemma CallLeavesAlone(cfg: Config, k: Sim, q: PartyId, p: PartyId)
    requires Wf(cfg, k) && k.cur == Some(q) && p in k.hist && p != q
    ensures LeavesAlone(k, StepTask(cfg, k, q), q, p)
  {
    hide WfHeap, WfWakers, PollReceive, Arm;
    if IsReceive(OpOf(cfg, k, q)) {
      OneReceive(cfg, k, q);
      ArmLeavesAlone(cfg, k, q, p);
      var a := Armed(cfg, k, q);
      PollLeavesAlone(a, q, p, Senders(cfg, OpOf(cfg, k, q)), DeadlineOf(cfg, k, q), Blame(OpOf(cfg, k, q)));
    }
  }

  lemma ArmLeavesAlone(cfg: Config, k: Sim, q: PartyId, p: PartyId)
    requires q in cfg.parties && q in k.hist && p in k.hist && p != q
    ensures LeavesAlone(k, Armed(cfg, k, q), q, p) && Armed(cfg, k, q).hist == k.hist
    ensures Armed(cfg, k, q).cur == k.cur && Armed(cfg, k, q).sb.clocks == k.sb.clocks
  {
  }

  lemma PollLeavesAlone(a: Sim, q: PartyId, p: PartyId, senders: seq<PartyId>, deadline: Option<Time>,
        blame: Option<PartyId>)
    requires p in a.hist && q in a.hist && p != q
    ensures LeavesAlone(a, Settle(a, q, PollReceive(a.sb, q, senders, deadline, blame)), q, p)
    ensures Settle(a, q, PollReceive(a.sb, q, senders, deadline, blame)).sb.events == a.sb.events
  {
    hide MinReady;
  }
}
