/** Every run of a protocol with a bounded number of network calls comes to an end. */
module Termination {
  import opened Wrappers
  import opened SimTypes
  import opened SwitchboardSpec
  import opened Kernel

  /** No party makes more than `bound` network calls, whatever it receives. */
  ghost predicate Bounded(cfg: Config, bound: nat) {
    forall p, h :: |h| >= bound ==> cfg.prog(p, h).Finish?
  }

  /** What one task may still do: calls to make, a timer to schedule, and to finish. */
  function TaskWork(k: Sim, bound: nat, p: PartyId): nat {
    (if |HistOf(k, p)| < bound then 2 * (bound - |HistOf(k, p)|) else 0)
    + (if p in k.wait then 0 else 1) + (if p in k.finished then 0 else 1)
  }

  function Work(k: Sim, bound: nat, parties: seq<PartyId>): nat {
    if parties == [] then 0 else TaskWork(k, bound, parties[0]) + Work(k, bound, parties[1..])
  }

  lemma {:induction false} WorkDrops(k: Sim, r: Sim, bound: nat, parties: seq<PartyId>, p: PartyId)
    requires forall q :: q in parties ==> q in k.hist && q in r.hist && TaskWork(r, bound, q) <= TaskWork(k, bound, q)
    ensures Work(r, bound, parties) <= Work(k, bound, parties)
    ensures p in parties && TaskWork(r, bound, p) < TaskWork(k, bound, p) ==>
            Work(r, bound, parties) < Work(k, bound, parties)
  {
    if parties != [] {
      WorkDrops(k, r, bound, parties[1..], p);
    }
  }

  /** Queue positions and the running task, the last component of the measure. */
  function Queued(k: Sim): nat { 2 * |k.ready| + if k.cur.Some? then 1 else 0 }

  /** The lexicographic order on remaining work, pending events and queued tasks. */
  ghost predicate Smaller(cfg: Config, bound: nat, r: Sim, k: Sim) {
    var (w, v) := (Work(r, bound, cfg.parties), Work(k, bound, cfg.parties));
    w < v || (w == v && (|r.sb.events| < |k.sb.events| || (r.sb.events == k.sb.events && Queued(r) < Queued(k))))
  }

  lemma AdvanceDrops(cfg: Config, bound: nat, k: Sim, p: PartyId, sb: State, res: Res)
    requires Wf(cfg, k) && k.cur == Some(p) && Bounded(cfg, bound) && !OpOf(cfg, k, p).Finish?
    requires Wf(cfg, Advance(k, p, sb, res))
    ensures Work(Advance(k, p, sb, res), bound, cfg.parties) < Work(k, bound, cfg.parties)
  {
    assert |HistOf(k, p)| < bound;
    WorkDrops(k, Advance(k, p, sb, res), bound, cfg.parties, p);
  }

  lemma ArmDrops(cfg: Config, bound: nat, k: Sim, p: PartyId)
    requires Wf(cfg, k) && k.cur == Some(p)
    ensures Wf(cfg, Armed(cfg, k, p))
    ensures Armed(cfg, k, p) == k || Work(Armed(cfg, k, p), bound, cfg.parties) < Work(k, bound, cfg.parties)
  {
    ArmKeeps(cfg, k, p);
    WorkDrops(k, Armed(cfg, k, p), bound, cfg.parties, p);
  }

  /** A task that parks has no less to do, and the heap is as it was. */
  lemma ParkingKeepsWork(k: Sim, sb: State, bound: nat, parties: seq<PartyId>)
    requires forall q :: q in parties ==> q in k.hist
    ensures Work(k.(sb := sb, cur := None), bound, parties) == Work(k, bound, parties)
  {
    WorkDrops(k, k.(sb := sb, cur := None), bound, parties, 0);
    WorkDrops(k.(sb := sb, cur := None), k, bound, parties, 0);
  }

  lemma ReceiveDecreases(cfg: Config, bound: nat, k: Sim, p: PartyId)
    requires Wf(cfg, k) && k.cur == Some(p) && Bounded(cfg, bound) && IsReceive(OpOf(cfg, k, p))
    ensures Wf(cfg, StepTask(cfg, k, p)) && Smaller(cfg, bound, StepTask(cfg, k, p), k)
  {
    ReceiveKeepsTasks(cfg, k, p);
    OneReceive(cfg, k, p);
    ArmDrops(cfg, bound, k, p);
    var armed, poll := Armed(cfg, k, p), PollOf(cfg, k, p);
    var r := StepTask(cfg, k, p);
    if poll.1.Some? {
      AdvanceDrops(cfg, bound, armed, p, poll.0, poll.1.value);
    } else {
      ParkingKeepsWork(armed, poll.0, bound, cfg.parties);
    }
  }

  lemma CallDecreases(cfg: Config, bound: nat, k: Sim, p: PartyId)
    requires Wf(cfg, k) && k.cur == Some(p) && Bounded(cfg, bound) && !IsReceive(OpOf(cfg, k, p))
    ensures Wf(cfg, StepTask(cfg, k, p)) && Smaller(cfg, bound, StepTask(cfg, k, p), k)
  {
    CallKeepsTasks(cfg, k, p);
    match OpOf(cfg, k, p)
    case Send(to, packet) =>
      AdvanceDrops(cfg, bound, k, p, SendPacket(k.sb, cfg.delay, Link(p, to), packet), Done);
    case Record(mark) =>
      AdvanceDrops(cfg, bound, k, p, RecordMark(k.sb, p, mark), Done);
    case Finish =>
      WorkDrops(k, StepTask(cfg, k, p), bound, cfg.parties, p);
  }

  /** Every step of the executor makes the measure smaller. */
  lemma StepDecreases(cfg: Config, bound: nat, k: Sim)
    requires Wf(cfg, k) && Bounded(cfg, bound) && !Halted(cfg, k)
    ensures Wf(cfg, Step(cfg, k)) && Smaller(cfg, bound, Step(cfg, k), k)
  {
    hide StepTask, WfHeap;
    StepKeepsTasks(cfg, k);
    var r := Step(cfg, k);
    if k.cur.Some? {
      if IsReceive(OpOf(cfg, k, k.cur.value)) {
        ReceiveDecreases(cfg, bound, k, k.cur.value);
      } else {
        CallDecreases(cfg, bound, k, k.cur.value);
      }
    } else {
      WorkDrops(k, r, bound, cfg.parties, 0);
      WorkDrops(r, k, bound, cfg.parties, 0);
    }
  }

  /** From any point on, the run reaches its end. */
  lemma {:induction false} HaltsFrom(cfg: Config, bound: nat, n: nat) returns (m: nat)
    requires ValidConfig(cfg) && Bounded(cfg, bound)
    ensures n <= m && Halted(cfg, Run(cfg, m))
    decreases Work(Run(cfg, n), bound, cfg.parties), |Run(cfg, n).sb.events|, Queued(Run(cfg, n))
  {
    hide Run, Step, WfWakers, WfHeap, Work, Queued, Bounded;
    var k := Run(cfg, n);
    if Halted(cfg, k) {
      m := n;
    } else {
      StepDecreases(cfg, bound, k);
      RunStep(cfg, n + 1);
      m := HaltsFrom(cfg, bound, n + 1);
    }
  }

  /** The executor loop terminates: every run finishes all tasks or panics. */
  lemma RunTerminates(cfg: Config, bound: nat)
    requires ValidConfig(cfg) && Bounded(cfg, bound)
    ensures exists n: nat :: Halted(cfg, Run(cfg, n))
  {
    var n := HaltsFrom(cfg, bound, 0);
  }

  /** Once a run has ended nothing changes any more. */
  lemma {:induction false} HaltedStays(cfg: Config, n: nat, m: nat)
    requires ValidConfig(cfg) && Halted(cfg, Run(cfg, n)) && n <= m
    ensures Run(cfg, m) == Run(cfg, n)
    decreases m
  {
    hide Run;
    if n < m {
      HaltedStays(cfg, n, m - 1);
      RunStep(cfg, m);
    }
  }
}
