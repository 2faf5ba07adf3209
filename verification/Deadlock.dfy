/** The deadlock panic is raised exactly when no pending event can unblock a task. */
module Deadlock {
  import opened Wrappers
  import opened SimTypes
  import opened SwitchboardSpec
  import opened Kernel
  import opened Links
  import opened Histories
  import opened Wakeups
  import opened Termination

  /** The pending event would let the parked task return from its receive. */
  ghost predicate CanUnblock(cfg: Config, k: Sim, p: PartyId, e: ScheduledEvent) {
    && Blocked(cfg, k, p) && e in k.sb.events
    && e.link.recipient == p && e.link.sender in Senders(cfg, OpOf(cfg, k, p))
    && (e.kind.Delivery? || (p in k.wait && TimerOf(k, p).arrival <= e.arrival))
  }

  ghost predicate Hopeless(cfg: Config, k: Sim) {
    forall p, e :: !CanUnblock(cfg, k, p, e)
  }

  /** Every unfinished task is at a receive without deadline that nothing sent so far can answer. */
  ghost predicate Stuck(cfg: Config, k: Sim) {
    forall p :: p in cfg.parties && p !in k.finished ==>
      && IsReceive(OpOf(cfg, k, p)) && !IsTimed(OpOf(cfg, k, p))
      && (forall q :: q in Senders(cfg, OpOf(cfg, k, p)) ==> Queue(k.sb, Link(q, p)) == [])
      && (forall e :: e in k.sb.events && e.link.recipient == p && e.link.sender in Senders(cfg, OpOf(cfg, k, p)) ==>
        e.kind.Timer?)
  }

  /** A task that a stale timer wakes is parked again; nothing else can happen. */
  lemma StuckStays(cfg: Config, k: Sim)
    requires Wf(cfg, k) && Stuck(cfg, k)
    ensures Wf(cfg, Step(cfg, k)) && Stuck(cfg, Step(cfg, k))
    ensures Step(cfg, k).hist == k.hist && Step(cfg, k).finished == k.finished
  {
    StepKeepsTasks(cfg, k);
    if !Halted(cfg, k) && k.cur.Some? {
      var p := k.cur.value;
      OneReceive(cfg, k, p);
      assert MinReady(k.sb, p, Senders(cfg, OpOf(cfg, k, p))).None?;
      assert forall l :: Queue(Step(cfg, k).sb, l) == Queue(k.sb, l);
    } else if !Halted(cfg, k) && k.ready == [] {
      TickStuckStays(cfg, k, NextEvent(k.sb));
    }
  }

  /** Whatever its strategies, a stuck run has only its events to pop and its queue of tasks to go through. */
  lemma StuckDecreases(cfg: Config, k: Sim)
    requires Wf(cfg, k) && Stuck(cfg, k) && !Halted(cfg, k)
    ensures var r := Step(cfg, k);
      |r.sb.events| < |k.sb.events| || (r.sb.events == k.sb.events && Queued(r) < Queued(k))
  {
    if k.cur.Some? {
      var p := k.cur.value;
      OneReceive(cfg, k, p);
      assert MinReady(k.sb, p, Senders(cfg, OpOf(cfg, k, p))).None?;
    } else if k.ready == [] {
      assert NextEvent(k.sb) in k.sb.events;
    }
  }

  lemma {:induction false} StuckHalts(cfg: Config, n: nat) returns (m: nat)
    requires ValidConfig(cfg) && Stuck(cfg, Run(cfg, n))
    ensures n <= m && Halted(cfg, Run(cfg, m))
    decreases |Run(cfg, n).sb.events|, Queued(Run(cfg, n))
  {
    hide Run, Step, Wf, Stuck, Halted, Queued;
    if Halted(cfg, Run(cfg, n)) {
      m := n;
    } else {
      RunStep(cfg, n + 1);
      StuckDecreases(cfg, Run(cfg, n));
      StuckStays(cfg, Run(cfg, n));
      m := StuckHalts(cfg, n + 1);
    }
  }

  lemma TickStuckStays(cfg: Config, k: Sim, e: ScheduledEvent)
    requires Wf(cfg, k) && Stuck(cfg, k) && IsNext(k.sb, e) && Wf(cfg, Tick(k, e))
    ensures Stuck(cfg, Tick(k, e))
  {
    hide Wf;
    var r := Tick(k, e);
    assert forall l :: l != e.link || e.kind.Timer? ==> Queue(r.sb, l) == Queue(k.sb, l);
  }

  lemma {:induction false} StuckForGood(cfg: Config, n: nat, m: nat)
    requires ValidConfig(cfg) && n <= m && Stuck(cfg, Run(cfg, n))
    ensures Stuck(cfg, Run(cfg, m))
    ensures Run(cfg, m).hist == Run(cfg, n).hist && Run(cfg, m).finished == Run(cfg, n).finished
    decreases m
  {
    hide Step, Wf, Stuck;
    if n < m {
      StuckForGood(cfg, n, m - 1);
      StuckStays(cfg, Run(cfg, m - 1));
    }
  }

  /** The timer of a parked timed receive will unblock it. */
  lemma DeadlineUnblocks(cfg: Config, k: Sim, p: PartyId)
    requires Wf(cfg, k) && WfWait(cfg, k) && Blocked(cfg, k, p) && IsTimed(OpOf(cfg, k, p))
    ensures p in k.wait && CanUnblock(cfg, k, p, TimerOf(k, p))
  {
    assert ParkedProperly(cfg, k, p) && TimerPending(cfg, k, p);
  }

  lemma HopelessIsStuck(cfg: Config, n: nat)
    requires ValidConfig(cfg) && Idle(Run(cfg, n)) && Hopeless(cfg, Run(cfg, n))
    ensures Stuck(cfg, Run(cfg, n))
  {
    hide Run;
    var k := Run(cfg, n);
    WaitAt(cfg, n);
    forall p | p in cfg.parties && p !in k.finished
      ensures && IsReceive(OpOf(cfg, k, p)) && !IsTimed(OpOf(cfg, k, p))
        && (forall q :: q in Senders(cfg, OpOf(cfg, k, p)) ==> Queue(k.sb, Link(q, p)) == [])
        && (forall e :: e in k.sb.events && e.link.recipient == p && e.link.sender in Senders(cfg, OpOf(cfg, k, p)) ==>
          e.kind.Timer?)
    {
      assert Blocked(cfg, k, p) && ParkedProperly(cfg, k, p);
      if IsTimed(OpOf(cfg, k, p)) {
        DeadlineUnblocks(cfg, k, p);
      }
      forall e | e in k.sb.events && e.link.recipient == p && e.link.sender in Senders(cfg, OpOf(cfg, k, p))
        ensures e.kind.Timer?
      {
        assert !CanUnblock(cfg, k, p, e);
      }
    }
  }

  /** With the same results, the same packets were sent and received on every link. */
  lemma SameResultsSameTraffic(cfg: Config, n: nat, m: nat, l: Link)
    requires ValidConfig(cfg) && Run(cfg, n).hist == Run(cfg, m).hist
    ensures |GotOn(Run(cfg, n).sb, l)| == |GotOn(Run(cfg, m).sb, l)|
    ensures |SentOn(Run(cfg, n).sb, l)| == |SentOn(Run(cfg, m).sb, l)|
  {
    hide Run, Wf;
    HistoriesAt(cfg, n);
    HistoriesAt(cfg, m);
    var k, r := Run(cfg, n), Run(cfg, m);
    assert LinkHistory(cfg, k, l) && LinkHistory(cfg, r, l);
    assert |PacketsGot(k.sb, l)| == |PacketsGot(r.sb, l)|;
    assert |PacketsOf(SentOn(k.sb, l))| == |PacketsOf(SentOn(r.sb, l))|;
  }

  /** A delivery in flight on a link means that not all of what was sent on it has been received. */
  lemma InFlightNotReceived(s: State, delay: (Link, nat) -> Time, e: ScheduledEvent)
    requires LinkOk(s, delay, e.link) && e in s.events && e.kind.Delivery?
    ensures |GotOn(s, e.link)| < |SentOn(s, e.link)|
  {
    assert Flies(e.link, SentOn(s, e.link), Delivered(s, e.link), e);
  }

  /** Whoever can be unblocked will have made progress before the executor could panic. */
  lemma PanicNotBefore(cfg: Config, n: nat, m: nat, p: PartyId, e: ScheduledEvent)
    requires ValidConfig(cfg) && CanUnblock(cfg, Run(cfg, n), p, e)
    requires Idle(Run(cfg, n)) && Deadlocked(cfg, Run(cfg, m))
    ensures Run(cfg, n).hist != Run(cfg, m).hist
  {
    hide Run;
    var k, r := Run(cfg, n), Run(cfg, m);
    NoLostWakeup(cfg, n, p);
    if k.hist == r.hist {
      assert OpOf(cfg, r, p) == OpOf(cfg, k, p);
      PanicIsReal(cfg, m, p);
      SameResultsSameTraffic(cfg, n, m, e.link);
      LinksAt(cfg, n);
      LinksAt(cfg, m);
      InFlightNotReceived(k.sb, cfg.delay, e);
      NothingInFlight(r.sb, cfg.delay, e.link);
    }
  }

  /**
   * Exact deadlock. At an idle tick with unfinished tasks, no pending event can unblock any of them
   * if and only if the executor goes on to panic without any task returning from a call again,
   * whatever calls the protocols would still make.
   */
  lemma DeadlockIsExact(cfg: Config, n: nat)
    requires ValidConfig(cfg)
    requires Idle(Run(cfg, n)) && !AllFinished(cfg, Run(cfg, n))
    ensures Hopeless(cfg, Run(cfg, n)) <==>
      exists m: nat :: n <= m && Deadlocked(cfg, Run(cfg, m)) && Run(cfg, m).hist == Run(cfg, n).hist
  {
    hide Run;
    var k := Run(cfg, n);
    if Hopeless(cfg, k) {
      HopelessIsStuck(cfg, n);
      var m := StuckHalts(cfg, n);
      StuckForGood(cfg, n, m);
      assert Deadlocked(cfg, Run(cfg, m)) && Run(cfg, m).hist == k.hist;
    } else {
      var p, e :| CanUnblock(cfg, k, p, e);
      forall m | n <= m && Deadlocked(cfg, Run(cfg, m)) ensures Run(cfg, m).hist != k.hist {
        PanicNotBefore(cfg, n, m, p, e);
      }
    }
  }
}
