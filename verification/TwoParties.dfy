/**
 * Small concrete runs of two parties that send to and wait for each other, with and without cancelling
 * timers, followed step by step on a board that shows what their outcome depends on.
 */
module TwoParties {
  import opened Wrappers
  import opened SimTypes
  import opened SwitchboardSpec
  import opened Kernel
  import opened StaleTimers

  function Peer(p: PartyId): PartyId { if p == 0 then 1 else 0 }

  function LinkTo(p: PartyId): Link { Link(Peer(p), p) }

  /** What concerns one party: its results, its pending timer, and the link on which it receives. */
  datatype Side = Side(h: seq<Res>, timer: Option<ScheduledEvent>, parked: bool, queue: seq<Packet>, clock: Time,
    last: Option<Time>, done: bool)

  /** What the outcome of such a run depends on. */
  datatype Board = Board(zero: Side, one: Side, ready: seq<PartyId>, cur: Option<PartyId>,
    events: set<ScheduledEvent>, nextSeq: nat)

  function SideAt(k: Sim, p: PartyId): Side {
    Side(HistOf(k, p), if p in k.wait then Some(k.wait[p]) else None,
      LinkTo(p) in k.sb.parked, Queue(k.sb, LinkTo(p)), Clock(k.sb, p),
      if LinkTo(p) in k.sb.last then Some(k.sb.last[LinkTo(p)]) else None, p in k.finished)
  }

  function Look(k: Sim): Board {
    Board(SideAt(k, 0), SideAt(k, 1), k.ready, k.cur, k.sb.events, k.sb.nextSeq)
  }

  function Of(b: Board, p: PartyId): Side { if p == 0 then b.zero else b.one }

  function With(b: Board, p: PartyId, s: Side): Board { if p == 0 then b.(zero := s) else b.(one := s) }

  /** The parties are 0 and 1. */
  ghost predicate TwoOf(c: Config) { c.parties == [0, 1] || c.parties == [1, 0] }

  /** Party `p` takes part and has not finished. */
  ghost predicate Two(c: Config, k: Sim, p: PartyId) {
    Wf(c, k) && (forall q :: q in c.parties <==> q == 0 || q == 1) && (p == 0 || p == 1) && p !in k.finished
  }

  const NEW := Side([], None, false, [], 0, None, false)

  lemma Dispatched(c: Config, k: Sim, p: PartyId)
    requires Two(c, k, p) && k.cur.None? && k.ready != [] && k.ready[0] == p
    ensures Look(Step(c, k)) == Look(k).(ready := k.ready[1..], cur := Some(p))
  {
    hide WfWakers, WfHeap;
  }

  lemma Finishes(c: Config, k: Sim, p: PartyId)
    requires Two(c, k, p) && k.cur == Some(p) && OpOf(c, k, p) == Finish
    ensures Look(Step(c, k)) == With(Look(k), p, SideAt(k, p).(done := true)).(cur := None)
  {
    hide WfWakers, WfHeap;
  }

  /** The state `k` after the receive of `p` has been armed and parked. */
  function Parked(k: Sim, p: PartyId, timer: ScheduledEvent): Sim {
    k.(sb := k.sb.(nextSeq := k.sb.nextSeq + 1, events := k.sb.events + {timer}, parked := k.sb.parked[LinkTo(p) := p]),
       wait := k.wait[p := timer], cur := None)
  }

  lemma WaitStep(c: Config, k: Sim, p: PartyId, timeout: Time)
    requires Two(c, k, p) && k.cur == Some(p) && OpOf(c, k, p) == RecvFromTimeout(Peer(p), timeout)
    requires p !in k.wait && Queue(k.sb, LinkTo(p)) == [] && timeout > 0
    ensures Step(c, k) == Parked(k, p, ScheduledEvent(Clock(k.sb, p) + timeout, k.sb.nextSeq, LinkTo(p), Timer))
  {
    hide WfWakers, WfHeap, Settle, PollRecvTimeout, Arm;
    PollsOnce(k, p, timeout);
  }

  lemma PollsOnce(k: Sim, p: PartyId, timeout: Time)
    requires p in k.hist && p !in k.wait && Queue(k.sb, LinkTo(p)) == [] && timeout > 0
    ensures var armed := Arm(k, p, LinkTo(p), timeout);
      p in armed.wait && p in armed.hist
        && Settle(armed, p, PollRecvTimeout(armed.sb, LinkTo(p), armed.wait[p].arrival))
        == Parked(k, p, ScheduledEvent(Clock(k.sb, p) + timeout, k.sb.nextSeq, LinkTo(p), Timer))
  {
  }

  /** Party `p` starts a receive under a deadline, and is parked. */
  lemma Waits(c: Config, k: Sim, p: PartyId, timeout: Time)
    requires Two(c, k, p) && k.cur == Some(p) && OpOf(c, k, p) == RecvFromTimeout(Peer(p), timeout)
    requires p !in k.wait && Queue(k.sb, LinkTo(p)) == [] && timeout > 0
    ensures var timer := ScheduledEvent(Clock(k.sb, p) + timeout, k.sb.nextSeq, LinkTo(p), Timer);
      Look(Step(c, k)) == With(Look(k), p, SideAt(k, p).(timer := Some(timer), parked := true)).(
        cur := None, events := k.sb.events + {timer}, nextSeq := k.sb.nextSeq + 1)
  {
    hide Wf, Step, OpOf;
    WaitStep(c, k, p, timeout);
  }

  lemma ResumeStep(c: Config, k: Sim, p: PartyId, timeout: Time)
    requires Two(c, k, p) && k.cur == Some(p) && OpOf(c, k, p) == RecvFromTimeout(Peer(p), timeout) && p in k.wait
    requires Queue(k.sb, LinkTo(p)) != [] || k.wait[p].arrival <= Clock(k.sb, p)
    ensures p in k.hist
    ensures Step(c, k) == Settle(k, p, PollRecvTimeout(k.sb, LinkTo(p), k.wait[p].arrival))
  {
    hide WfWakers, WfHeap, Settle, PollRecvTimeout;
  }

  /** Party `p` is polled again, and its receive comes to a result. */
  lemma Resumes(c: Config, k: Sim, p: PartyId, timeout: Time)
    requires Two(c, k, p) && k.cur == Some(p) && OpOf(c, k, p) == RecvFromTimeout(Peer(p), timeout) && p in k.wait
    requires Queue(k.sb, LinkTo(p)) != [] || k.wait[p].arrival <= Clock(k.sb, p)
    ensures var q := Queue(k.sb, LinkTo(p));
      Look(Step(c, k)) == With(Look(k), p, SideAt(k, p).(
        h := SideAt(k, p).h + [if q != [] then Got(Peer(p), q[0]) else TimedOut(Some(Peer(p)))],
        timer := None, queue := if q != [] then q[1..] else []))
  {
    hide Wf, Step, OpOf, Arm, Live;
    ResumeStep(c, k, p, timeout);
  }

  lemma SendStep(c: Config, k: Sim, p: PartyId, packet: Packet)
    requires Two(c, k, p) && k.cur == Some(p) && OpOf(c, k, p) == Send(Peer(p), packet)
    ensures p in k.hist
    ensures Step(c, k) == Advance(k, p, SendPacket(k.sb, c.delay, LinkTo(Peer(p)), packet), Done)
  {
    hide WfWakers, WfHeap, Advance, SendPacket;
  }

  /** Party `p` sends a packet to the other. */
  lemma Sends(c: Config, k: Sim, p: PartyId, packet: Packet)
    requires Two(c, k, p) && k.cur == Some(p) && OpOf(c, k, p) == Send(Peer(p), packet)
    ensures var arrival := ArrivalOf(k.sb, c.delay, LinkTo(Peer(p)), packet);
      Look(Step(c, k)) == With(With(Look(k), p, SideAt(k, p).(h := SideAt(k, p).h + [Done], timer := None)),
        Peer(p), SideAt(k, Peer(p)).(last := Some(arrival))).(
        events := k.sb.events + {ScheduledEvent(arrival, k.sb.nextSeq, LinkTo(Peer(p)), Delivery(packet))},
          nextSeq := k.sb.nextSeq + 1)
  {
    hide Wf, Step, OpOf, ArrivalOf;
    SendStep(c, k, p, packet);
  }

  lemma TickStep(c: Config, k: Sim, p: PartyId, e: ScheduledEvent)
    requires Two(c, k, p) && Idle(k) && IsNext(k.sb, e)
    ensures Step(c, k) == Tick(k, e)
    ensures e.link in k.sb.parked ==> k.sb.parked[e.link] == e.link.recipient
  {
    hide StepTask, Dispatch, OpOf, NextEvent, Tick, WfHeap;
    NextIsUnique(k.sb, e);
    assert p in c.parties;
  }

  /** An event on the link to `q`, while `p` has not finished. */
  lemma Ticks(c: Config, k: Sim, p: PartyId, q: PartyId, e: ScheduledEvent)
    requires Two(c, k, p) && (q == 0 || q == 1) && Idle(k) && IsNext(k.sb, e) && e.link == LinkTo(q)
    ensures Look(Step(c, k)) == With(Look(k), q, SideAt(k, q).(
      parked := false, clock := Max(Clock(k.sb, q), e.arrival),
      queue := if e.kind.Delivery? then Queue(k.sb, LinkTo(q)) + [e.kind.packet] else Queue(k.sb, LinkTo(q)))).(
      ready := if LinkTo(q) in k.sb.parked then [q] else [], events := k.sb.events - {e})
  {
    hide Wf, Step, IsNext;
    TickStep(c, k, p, e);
  }

  // --- Runs, with and without cancelling timers ---

  predicate Live(b: Board, e: ScheduledEvent) {
    e.kind.Timer? ==> (e.link.recipient == 0 || e.link.recipient == 1) && Of(b, e.link.recipient).timer == Some(e)
  }

  /** The board after a step: if timers are cancelled those that are not pending any more are gone. */
  function Shown(x: bool, b: Board): Board {
    if x then b.(events := set e | e in b.events && Live(b, e)) else b
  }

  lemma AllLive(x: bool, b: Board)
    requires x ==> forall e :: e in b.events ==> Live(b, e)
    ensures Shown(x, b) == b
  {
  }

  /** The states of the run, and with `x` those of the run of the simulator that cancels timers. */
  ghost function At(c: Config, x: bool, n: int): (k: Sim)
    ensures ValidConfig(c) ==> Wf(c, k)
  {
    if x then RunCancelling(c, n) else Run(c, n)
  }

  lemma AtFirst(c: Config, x: bool)
    requires TwoOf(c)
    ensures Shows(c, x, 0, Board(NEW, NEW, c.parties, None, {}, 0))
  {
  }

  lemma After(c: Config, x: bool, n: nat)
    requires ValidConfig(c) && TwoOf(c)
    ensures Look(At(c, x, n + 1)) == Shown(x, Look(Step(c, At(c, x, n))))
  {
    hide Run, RunCancelling, Step, WfWakers;
    if x {
      CancellingStep(c, n);
      StepKeepsTasks(c, At(c, x, n));
      LookErase(c, Step(c, At(c, x, n)));
    } else {
      RunStep(c, n + 1);
    }
  }

  lemma OnlyTheTwoWait(c: Config, k: Sim)
    requires Wf(c, k) && TwoOf(c)
    ensures forall p :: p in k.wait ==> p == 0 || p == 1
  {
    hide WfWakers, WfHeap;
  }

  lemma LookErase(c: Config, k: Sim)
    requires Wf(c, k) && TwoOf(c)
    ensures Look(Erase(k)) == Shown(true, Look(k))
  {
    hide Wf;
    OnlyTheTwoWait(c, k);
    assert forall e :: e in k.sb.events ==> (Stale(k.wait, e) <==> !Live(Look(k), e));
    assert LiveEvents(k) == Shown(true, Look(k)).events;
  }

  /** At step `n` the board is `b`. */
  ghost predicate Shows(c: Config, x: bool, n: int, b: Board) {
    ValidConfig(c) && TwoOf(c) && Look(At(c, x, n)) == b
  }

  /** Party `p` has not finished. */
  predicate Busy(b: Board, p: PartyId) { (p == 0 || p == 1) && !Of(b, p).done }

  ghost predicate Stage(c: Config, x: bool, n: int, b: Board, p: PartyId) { Shows(c, x, n, b) && Busy(b, p) }

  lemma OnStage(c: Config, x: bool, n: nat, b: Board, p: PartyId)
    requires Stage(c, x, n, b, p)
    ensures var k := At(c, x, n);
      && Two(c, k, p) && SideAt(k, p) == Of(b, p) && SideAt(k, Peer(p)) == Of(b, Peer(p)) && p in k.hist
      && OpOf(c, k, p) == c.prog(p, Of(b, p).h)
  {
    hide Run, RunCancelling, Step, WfWakers, WfHeap;
  }

  function Begun(b: Board, p: PartyId): Board
    requires b.ready != []
  {
    b.(ready := b.ready[1..], cur := Some(p))
  }

  lemma Begins(c: Config, x: bool, n: nat, b: Board, p: PartyId)
    requires Stage(c, x, n, b, p) && b.cur.None? && b.ready != [] && b.ready[0] == p
    ensures Shows(c, x, n + 1, Shown(x, Begun(b, p)))
  {
    hide At, Step, OpOf, Wf, Shown;
    OnStage(c, x, n, b, p);
    After(c, x, n);
    Dispatched(c, At(c, x, n), p);
  }

  function Ended(b: Board, p: PartyId): Board { With(b, p, Of(b, p).(done := true)).(cur := None) }

  lemma Ends(c: Config, x: bool, n: nat, b: Board, p: PartyId)
    requires Stage(c, x, n, b, p) && b.cur == Some(p) && c.prog(p, Of(b, p).h) == Finish
    ensures Shows(c, x, n + 1, Shown(x, Ended(b, p)))
  {
    hide At, Step, OpOf, Wf, Shown;
    OnStage(c, x, n, b, p);
    After(c, x, n);
    Finishes(c, At(c, x, n), p);
  }

  function Deadline(b: Board, p: PartyId, timeout: Time): ScheduledEvent {
    ScheduledEvent(Of(b, p).clock + timeout, b.nextSeq, LinkTo(p), Timer)
  }

  function Asleep(b: Board, p: PartyId, timeout: Time): Board {
    var timer := Deadline(b, p, timeout);
    With(b, p, Of(b, p).(timer := Some(timer), parked := true)).(
      cur := None, events := b.events + {timer}, nextSeq := b.nextSeq + 1)
  }

  lemma Sleeps(c: Config, x: bool, n: nat, b: Board, p: PartyId, timeout: Time)
    requires Stage(c, x, n, b, p) && b.cur == Some(p) && c.prog(p, Of(b, p).h) == RecvFromTimeout(Peer(p), timeout)
    requires Of(b, p).timer.None? && Of(b, p).queue == [] && timeout > 0
    ensures Shows(c, x, n + 1, Shown(x, Asleep(b, p, timeout)))
  {
    hide At, Step, OpOf, Wf, Shown;
    OnStage(c, x, n, b, p);
    After(c, x, n);
    Waits(c, At(c, x, n), p, timeout);
  }

  function Arriving(c: Config, b: Board, p: PartyId, packet: Packet): ScheduledEvent {
    var arrival := Of(b, p).clock + c.delay(LinkTo(Peer(p)), packet.size);
    var last := Of(b, Peer(p)).last;
    ScheduledEvent(if last.Some? then Max(arrival, last.value) else arrival, b.nextSeq, LinkTo(Peer(p)),
      Delivery(packet))
  }

  function Posted(c: Config, b: Board, p: PartyId, packet: Packet): Board {
    var e := Arriving(c, b, p, packet);
    With(With(b, p, Of(b, p).(h := Of(b, p).h + [Done], timer := None)), Peer(p),
      Of(b, Peer(p)).(last := Some(e.arrival))).(
      events := b.events + {e}, nextSeq := b.nextSeq + 1)
  }

  lemma Posts(c: Config, x: bool, n: nat, b: Board, p: PartyId, packet: Packet)
    requires Stage(c, x, n, b, p) && b.cur == Some(p) && c.prog(p, Of(b, p).h) == Send(Peer(p), packet)
    ensures Shows(c, x, n + 1, Shown(x, Posted(c, b, p, packet)))
  {
    hide At, Step, OpOf, Wf, Shown;
    OnStage(c, x, n, b, p);
    After(c, x, n);
    Sends(c, At(c, x, n), p, packet);
  }

  /** `e` comes first of all that is pending. */
  ghost predicate First(b: Board, e: ScheduledEvent) {
    e in b.events && forall f :: f in b.events ==> e == f || Before(e, f)
  }

  function Struck(b: Board, q: PartyId, e: ScheduledEvent): Board {
    With(b, q, Of(b, q).(parked := false, clock := Max(Of(b, q).clock, e.arrival),
      queue := if e.kind.Delivery? then Of(b, q).queue + [e.kind.packet] else Of(b, q).queue)).(
      ready := if Of(b, q).parked then [q] else [], events := b.events - {e})
  }

  /** An event on the link to `q`, while `p` has not finished. */
  lemma Strikes(c: Config, x: bool, n: nat, b: Board, p: PartyId, q: PartyId, e: ScheduledEvent)
    requires Stage(c, x, n, b, p) && (q == 0 || q == 1) && b.cur.None? && b.ready == [] && First(b, e)
      && e.link == LinkTo(q)
    ensures Shows(c, x, n + 1, Shown(x, Struck(b, q, e)))
  {
    hide At, Step, OpOf, Wf, Shown;
    OnStage(c, x, n, b, p);
    After(c, x, n);
    Ticks(c, At(c, x, n), p, q, e);
  }

  function Outcome(p: PartyId, queue: seq<Packet>): Res {
    if queue != [] then Got(Peer(p), queue[0]) else TimedOut(Some(Peer(p)))
  }

  function Resumed(b: Board, p: PartyId): Board {
    var s := Of(b, p);
    With(b, p, s.(h := s.h + [Outcome(p, s.queue)], timer := None, queue := if s.queue != [] then s.queue[1..] else []))
  }

  lemma Wakes(c: Config, x: bool, n: nat, b: Board, p: PartyId, timeout: Time)
    requires Stage(c, x, n, b, p) && b.cur == Some(p) && c.prog(p, Of(b, p).h) == RecvFromTimeout(Peer(p), timeout)
    requires Of(b, p).timer.Some? && (Of(b, p).queue != [] || Of(b, p).timer.value.arrival <= Of(b, p).clock)
    ensures Shows(c, x, n + 1, Shown(x, Resumed(b, p)))
  {
    hide At, Step, OpOf, Wf, Shown;
    OnStage(c, x, n, b, p);
    After(c, x, n);
    Resumes(c, At(c, x, n), p, timeout);
  }

  /** The state of a party whose receive has been resolved by `e`. */
  function Served(s: Side, p: PartyId, e: ScheduledEvent): Side {
    s.(h := s.h + [if e.kind.Delivery? then Got(Peer(p), e.kind.packet) else TimedOut(Some(Peer(p)))],
       timer := None, parked := false, clock := Max(s.clock, e.arrival))
  }

  /** An event resolves the receive that waits for it: a tick, a dispatch and a poll. */
  lemma Serves(c: Config, x: bool, n: nat, b: Board, p: PartyId, e: ScheduledEvent, timeout: Time)
    requires Stage(c, x, n, b, p) && b.cur.None? && b.ready == [] && First(b, e) && e.link == LinkTo(p)
    requires c.prog(p, Of(b, p).h) == RecvFromTimeout(Peer(p), timeout)
    requires Of(b, p).parked && Of(b, p).queue == [] && Of(b, p).timer.Some?
    requires e.kind.Delivery? || Of(b, p).timer.value.arrival <= e.arrival
    requires x ==> forall f :: f in b.events ==> Live(b, f)
    ensures !Idle(At(c, x, n + 1)) && !Idle(At(c, x, n + 2))
    ensures Shows(c, x, n + 3, Shown(x, With(b, p, Served(Of(b, p), p, e)).(cur := Some(p), events := b.events - {e})))
  {
    hide At, Step, OpOf, Wf, Shown, First;
    Strikes(c, x, n, b, p, p, e);
    var s := Struck(b, p, e);
    AllLive(x, s);
    Begins(c, x, n + 1, s, p);
    var t := Begun(s, p);
    AllLive(x, t);
    Wakes(c, x, n + 2, t, p, timeout);
    if e.kind.Delivery? { assert ([] + [e.kind.packet])[1..] == []; }
    assert Resumed(t, p) == With(b, p, Served(Of(b, p), p, e)).(cur := Some(p), events := b.events - {e});
  }

  /** The results and events on the board are those of the run, and the run has ended when both parties have. */
  lemma ReadOff(c: Config, x: bool, n: nat, b: Board)
    requires Shows(c, x, n, b)
    ensures ValidConfig(c) && At(c, x, n).hist == map[0 := b.zero.h, 1 := b.one.h]
    ensures At(c, x, n).sb.events == b.events
    ensures b.zero.done && b.one.done ==> Halted(c, At(c, x, n))
  {
    hide At, Run, RunCancelling, Step, WfWakers, WfHeap;
  }

  /** Nothing is overtaken in a state in which a party is about to run, or no timer is stale. */
  lemma NothingOvertaken(c: Config, n: nat, b: Board)
    requires Shows(c, false, n, b)
    requires b.cur.Some? || b.ready != [] || forall e :: e in b.events ==> Live(b, e)
    ensures ValidConfig(c) && !Overtakes(c, Run(c, n))
  {
    hide Run, Step, WfWakers, WfHeap;
    var k := Run(c, n);
    assert !Idle(k) || forall e :: e in k.sb.events ==> Live(b, e) && !Stale(k.wait, e);
  }
}
