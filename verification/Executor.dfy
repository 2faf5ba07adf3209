/** The executor loop as an object that drives the tasks of one simulation over a switchboard. */
module Executor {
  import opened Wrappers
  import opened SimTypes
  import opened SwitchboardSpec
  import opened Kernel
  import opened Termination
  import SB = Switchboard

  class Executor {
    const cfg: Config
    const sb: SB.Switchboard
    var hist: map<PartyId, seq<Res>>
    // The deadline that a suspended timed receive remembers.
    var deadlines: map<PartyId, Time>
    var ready: seq<PartyId>
    var cur: Option<PartyId>
    var finished: set<PartyId>
    var remaining: nat
    ghost var wait: map<PartyId, ScheduledEvent>
    ghost var now: Time
    // How many steps of the small-step machine have been made.
    ghost var steps: nat

    ghost function View(): Sim
      reads this, sb
    {
      Sim(sb.View(), hist, wait, ready, cur, finished, now)
    }

    /** The object is in the state that `steps` steps of the small-step machine lead to. */
    ghost predicate Valid()
      reads this, sb
    {
      && ValidConfig(cfg) && View() == Run(cfg, steps)
      && sb.delay == cfg.delay
      && deadlines.Keys == wait.Keys && (forall p :: p in wait ==> deadlines[p] == wait[p].arrival)
      && remaining + |finished| == |cfg.parties|
    }

    constructor (cfg: Config)
      requires ValidConfig(cfg)
      ensures Valid() && this.cfg == cfg && fresh(sb) && steps == 0
    {
      this.cfg := cfg;
      sb := new SB.Switchboard(cfg.delay);
      hist := map p | p in cfg.parties :: [];
      deadlines, ready, cur, finished, remaining := map[], cfg.parties, None, {}, |cfg.parties|;
      wait, now, steps := map[], 0, 0;
    }

    /** Hands `res` to the running task. */
    method Return(p: PartyId, res: Res)
      requires p in hist
      modifies this`hist, this`deadlines, this`wait
      ensures View() == Advance(old(View()), p, sb.View(), res)
      ensures deadlines == old(deadlines) - {p}
    {
      hist := hist[p := hist[p] + [res]];
      deadlines := deadlines - {p};
      wait := wait - {p};
    }

    /** What a poll of a receive gave is handed to the task, or the task is left suspended. */
    method Resume(p: PartyId, result: Option<Res>)
      requires p in hist
      modifies this`hist, this`deadlines, this`wait, this`cur
      ensures View() == Settle(old(View()), p, (sb.View(), result))
      ensures deadlines == if result.Some? then old(deadlines) - {p} else old(deadlines)
    {
      if result.Some? { Return(p, result.value); } else { cur := None; }
    }

    /** The remembered deadlines are those of the pending timers. */
    ghost predicate DeadlinesOk()
      reads this
    {
      deadlines.Keys == wait.Keys && (forall p :: p in wait ==> deadlines[p] == wait[p].arrival)
    }

    /** The first poll of a timed receive of `p` has fixed `deadline` and scheduled its timer. */
    method Remember(p: PartyId, link: Link, deadline: Time, ghost number: nat)
      requires DeadlinesOk()
      modifies this`deadlines, this`wait
      ensures DeadlinesOk()
      ensures wait == if p in old(wait) then old(wait)
        else old(wait)[p := ScheduledEvent(deadline, number, link, Timer)]
    {
      if p !in deadlines {
        deadlines := deadlines[p := deadline];
        wait := wait[p := ScheduledEvent(deadline, number, link, Timer)];
      }
    }

    method PollFromTimeout(p: PartyId, q: PartyId, timeout: Time)
      requires p in hist && p in cfg.parties && cfg.prog(p, hist[p]) == RecvFromTimeout(q, timeout) && DeadlinesOk()
      modifies this, sb
      ensures View() == StepTask(cfg, old(View()), p)
      ensures DeadlinesOk() && remaining == old(remaining) && steps == old(steps)
    {
      hide PollRecvTimeout, SB.Switchboard.View;
      ghost var k := View();
      var future := new SB.RecvTimeout.Suspended(q, p, timeout, if p in deadlines then Some(deadlines[p]) else None);
      var result := future.Poll(sb);
      Remember(p, Link(q, p), future.deadline.value, k.sb.nextSeq);
      ghost var armed := Arm(k, p, Link(q, p), timeout);
      assert armed.wait == wait && (sb.View(), result) == PollRecvTimeout(armed.sb, Link(q, p), armed.wait[p].arrival);
      Resume(p, result);
    }

    method PollAnyTimeout(p: PartyId, timeout: Time)
      requires p in hist && p in cfg.parties && cfg.prog(p, hist[p]) == RecvAnyTimeout(timeout) && DeadlinesOk()
      modifies this, sb
      ensures View() == StepTask(cfg, old(View()), p)
      ensures DeadlinesOk() && remaining == old(remaining) && steps == old(steps)
    {
      hide PollReceive, SB.Switchboard.View;
      ghost var k := View();
      var future := new SB.RecvAnyTimeout.Suspended(p, cfg.parties, timeout,
        if p in deadlines then Some(deadlines[p]) else None);
      var result := future.Poll(sb);
      ghost var link := Link(cfg.parties[0], p);
      Remember(p, Link(cfg.parties[0], p), future.deadline.value, k.sb.nextSeq);
      ghost var armed := Arm(k, p, link, timeout);
      assert armed.wait == wait;
      assert (sb.View(), result) == PollReceive(armed.sb, p, cfg.parties, Some(armed.wait[p].arrival), None);
      Resume(p, result);
    }

    /** Makes the network call `op` of the running task `p`. */
    method Perform(p: PartyId, op: Op)
      requires p in hist && p in cfg.parties && p !in finished && op == cfg.prog(p, hist[p]) && cur == Some(p)
      requires DeadlinesOk() && remaining > 0 && sb.delay == cfg.delay
      modifies this, sb
      ensures View() == StepTask(cfg, old(View()), p)
      ensures DeadlinesOk() && remaining + |finished| == old(remaining + |finished|) && steps == old(steps)
    {
      hide PollReceive, PollRecv, PollRecvTimeout, SendPacket, SB.Switchboard.View;
      match op {
        case Send(to, packet) =>
          sb.Send(p, to, packet);
          Return(p, Done);
        case Record(mark) =>
          sb.RecordEvent(p, Marked(sb.ClockOf(p), mark));
          Return(p, Done);
        case RecvFrom(q) =>
          var future := new SB.Recv(q, p);
          var result := future.Poll(sb);
          Resume(p, result);
        case RecvAny =>
          var future := new SB.RecvAny(p, cfg.parties);
          var result := future.Poll(sb);
          Resume(p, result);
        case RecvFromTimeout(q, timeout) => PollFromTimeout(p, q, timeout);
        case RecvAnyTimeout(timeout) => PollAnyTimeout(p, timeout);
        case Finish =>
          finished, cur, remaining := finished + {p}, None, remaining - 1;
      }
    }

    /** One network call of the running task is one step of the machine. */
    method Call()
      requires Valid() && cur.Some?
      modifies this, sb
      ensures Valid() && steps == old(steps) + 1
    {
      hide Run, Wf, StepTask, Step, Halted, SB.Switchboard.View;
      ghost var k := View();
      RunningStep(cfg, k, cur.value);
      RemainingCount(cfg, k, remaining);
      var p := cur.value;
      Perform(p, cfg.prog(p, hist[p]));
      RunStep(cfg, steps + 1);
      steps := steps + 1;
    }

    /** The next ready task becomes the running one, unless it is finished. */
    method Pop()
      requires Valid() && cur.None? && ready != [] && remaining > 0
      modifies this
      ensures Valid() && steps == old(steps) + 1
    {
      hide Run, Wf, Step, Halted, SB.Switchboard.View;
      ghost var k := View();
      RemainingCount(cfg, k, remaining);
      DispatchStep(cfg, k);
      var id := ready[0];
      ready := ready[1..];
      if id !in finished { cur := Some(id); }
      RunStep(cfg, steps + 1);
      steps := steps + 1;
    }

    /** An idle tick: the next event is delivered, or there is none and the run is stuck. */
    method IdleTick() returns (progressed: bool)
      requires Valid() && cur.None? && ready == [] && remaining > 0
      modifies this, sb
      ensures Valid()
      ensures progressed ==> steps == old(steps) + 1 && !Deadlocked(cfg, old(View()))
      ensures !progressed ==> steps == old(steps) && View() == old(View()) && Deadlocked(cfg, View())
    {
      hide Run, Wf, WfHeap, Step;
      ghost var k := View();
      RemainingCount(cfg, k, remaining);
      HeapOk(cfg, k);
      var woken;
      progressed, woken := sb.DeliverNext();
      if progressed {
        TickStep(cfg, k);
        now := Max(now, NextEvent(k.sb).arrival);
        if woken.Some? { ready := ready + [woken.value]; }
        RunStep(cfg, steps + 1);
        steps := steps + 1;
      }
    }

    /**
     * The executor loop. It ends, with every task finished or with the panic, in the state that the
     * small-step machine reaches, and that state is an end of the run.
     */
    method RunSimulation(ghost bound: nat) returns (completed: bool)
      requires Valid() && Bounded(cfg, bound)
      modifies this, sb
      ensures Valid() && Halted(cfg, Run(cfg, steps))
      ensures completed <==> AllFinished(cfg, View())
    {
      hide Run, Wf, Step, Bounded, Work, Measure, SB.Switchboard.View;
      while remaining > 0
        invariant Valid()
        decreases Measure(cfg, bound, steps).0, Measure(cfg, bound, steps).1, Measure(cfg, bound, steps).2
      {
        ghost var n := steps;
        RemainingCount(cfg, Run(cfg, n), remaining);
        StepProgresses(cfg, bound, n);
        if cur.Some? {
          Call();
        } else if ready != [] {
          Pop();
        } else {
          var progressed := IdleTick();
          if !progressed { return false; }
        }
      }
      RemainingCount(cfg, Run(cfg, steps), remaining);
      completed := true;
    }
  }

  /** The termination measure of the state after `n` steps. */
  ghost function Measure(cfg: Config, bound: nat, n: nat): (nat, nat, nat)
    requires ValidConfig(cfg)
  {
    var k := Run(cfg, n);
    (Work(k, bound, cfg.parties), |k.sb.events|, Queued(k))
  }

  lemma StepProgresses(cfg: Config, bound: nat, n: nat)
    requires ValidConfig(cfg) && Bounded(cfg, bound)
    ensures !Halted(cfg, Run(cfg, n)) && !Deadlocked(cfg, Run(cfg, n)) ==>
            var (m, r) := (Measure(cfg, bound, n), Measure(cfg, bound, n + 1));
            r.0 < m.0 || (r.0 == m.0 && (r.1 < m.1 || (r.1 == m.1 && r.2 < m.2)))
  {
    hide Run, Wf, Step, Bounded, Work, Halted;
    RunStep(cfg, n + 1);
    if !Halted(cfg, Run(cfg, n)) {
      StepDecreases(cfg, bound, Run(cfg, n));
    }
  }

  lemma RunningStep(cfg: Config, k: Sim, p: PartyId)
    requires Wf(cfg, k) && k.cur == Some(p)
    ensures p in cfg.parties && p in k.hist && p !in k.finished && !AllFinished(cfg, k)
    ensures Step(cfg, k) == StepTask(cfg, k, p)
  {
    hide StepTask;
  }

  lemma DispatchStep(cfg: Config, k: Sim)
    requires Wf(cfg, k) && k.cur.None? && k.ready != [] && !AllFinished(cfg, k)
    ensures Step(cfg, k) == Dispatch(k)
  {
  }

  lemma TickStep(cfg: Config, k: Sim)
    requires Wf(cfg, k) && Idle(k) && k.sb.events != {} && !AllFinished(cfg, k)
    ensures Step(cfg, k) == Tick(k, NextEvent(k.sb))
  {
  }

  lemma HeapOk(cfg: Config, k: Sim)
    requires Wf(cfg, k)
    ensures WfHeap(k.sb)
  {
  }

  /** The count of remaining tasks is zero exactly when every task is finished. */
  lemma RemainingCount(cfg: Config, k: Sim, remaining: nat)
    requires ValidConfig(cfg) && Wf(cfg, k) && remaining + |k.finished| == |cfg.parties|
    ensures remaining == 0 <==> AllFinished(cfg, k)
  {
    var all := set q | q in cfg.parties;
    DistinctCount(cfg.parties, all);
    assert forall p :: p in k.finished ==> p in cfg.parties;
    assert k.finished <= all;
    assert all == k.finished + (all - k.finished);
    assert |all| == |k.finished| + |all - k.finished|;
    assert remaining == 0 <==> all - k.finished == {};
    assert AllFinished(cfg, k) <==> all <= k.finished;
  }

  lemma {:induction false} DistinctCount(s: seq<PartyId>, all: set<PartyId>)
    requires Distinct(s) && forall q :: q in s <==> q in all
    ensures |all| == |s|
  {
    if s != [] {
      assert s == [s[0]] + s[1..];
      DistinctCount(s[1..], all - {s[0]});
    } else {
      assert all == {};
    }
  }
}
