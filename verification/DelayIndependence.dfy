/**
 * Protocols that only send and receive from named parties do not see the network's timing: what
 * every party receives, and whether the run deadlocks, is the same under all delays and party orders.
 */
module DelayIndependence {
  import opened Wrappers
  import opened SimTypes
  import opened SwitchboardSpec
  import opened Kernel
  import opened Causality
  import opened Links
  import opened Histories
  import opened Wakeups
  import opened Termination

  /** No party ever receives from anyone or under a deadline. */
  ghost predicate OnlyDirect(cfg: Config) {
    forall p, h :: var op := cfg.prog(p, h); op.Send? || op.Record? || op.RecvFrom? || op.Finish?
  }

  /** The two simulations run the same protocols; party order and delays are unrelated. */
  ghost predicate SameProtocols(c1: Config, c2: Config) {
    && ValidConfig(c1) && ValidConfig(c2) && OnlyDirect(c1)
    && c1.prog == c2.prog
    && forall p :: p in c1.parties <==> p in c2.parties
  }

  /** What the step of a running task does to its results, for a protocol with named receives only. */
  lemma DirectCall(cfg: Config, k: Sim, p: PartyId)
    requires Wf(cfg, k) && WfLinks(k.sb, cfg.delay) && k.cur == Some(p) && OnlyDirect(cfg)
    ensures var op, r := OpOf(cfg, k, p), StepTask(cfg, k, p);
      match op
      case RecvFrom(q) =>
        var l := Link(q, p);
        r.hist == k.hist
        || (Queue(k.sb, l) != [] && |GotOn(k.sb, l)| < |SentOn(k.sb, l)|
            && r.hist == k.hist[p := HistOf(k, p) + [Got(q, SentOn(k.sb, l)[|GotOn(k.sb, l)|].packet)]])
      case Finish => r.hist == k.hist
      case _ => r.hist == k.hist[p := HistOf(k, p) + [Done]]
  {
    var op := OpOf(cfg, k, p);
    assert op.Send? || op.Record? || op.RecvFrom? || op.Finish?;
    if op.RecvFrom? {
      var l := Link(op.source, p);
      assert LinkOk(k.sb, cfg.delay, l);
      if Queue(k.sb, l) != [] {
        assert Queue(k.sb, l)[0] == SentOn(k.sb, l)[|GotOn(k.sb, l)| + 0].packet;
      }
    }
  }

  lemma CompletedStep(cfg: Config, k: Sim, p: PartyId)
    requires Wf(cfg, k) && WfLinks(k.sb, cfg.delay) && OnlyDirect(cfg) && p in cfg.parties
    requires p in Step(cfg, k).hist && HistOf(Step(cfg, k), p) != HistOf(k, p)
    ensures Step(cfg, k) == StepTask(cfg, k, p) && k.cur == Some(p)
    ensures var op, g := OpOf(cfg, k, p), HistOf(Step(cfg, k), p);
      match op
      case RecvFrom(q) =>
        var l := Link(q, p);
        |GotOn(k.sb, l)| < |SentOn(k.sb, l)|
        && g == HistOf(k, p) + [Got(q, SentOn(k.sb, l)[|GotOn(k.sb, l)|].packet)]
      case Finish => false
      case _ => g == HistOf(k, p) + [Done]
  {
    assert k.cur.Some?;
    CallGrows(cfg, k, k.cur.value, p);
    DirectCall(cfg, k, p);
  }

  /** The call that the n-th step completed: what it returned. */
  lemma CompletedCall(cfg: Config, n: nat, p: PartyId)
    requires ValidConfig(cfg) && OnlyDirect(cfg) && p in cfg.parties && n > 0
    requires HistOf(Run(cfg, n), p) != HistOf(Run(cfg, n - 1), p)
    ensures var op, s, h := OpOf(cfg, Run(cfg, n - 1), p), Run(cfg, n - 1).sb, HistOf(Run(cfg, n - 1), p);
      match op
      case RecvFrom(q) =>
        var l := Link(q, p);
        |GotOn(s, l)| < |SentOn(s, l)|
        && HistOf(Run(cfg, n), p) == h + [Got(q, SentOn(s, l)[|GotOn(s, l)|].packet)]
      case Finish => false
      case _ => HistOf(Run(cfg, n), p) == h + [Done]
  {
    hide Step, WfTasks, WfWakers, WfLinks;
    LinksAt(cfg, n - 1);
    CompletedStep(cfg, Run(cfg, n - 1), p);
  }

  /** Received on a link is a prefix of sent on it, in terms of the two parties' results. */
  lemma GotIsSentPrefix(cfg: Config, n: nat, q: PartyId, p: PartyId)
    requires ValidConfig(cfg) && p in cfg.parties && q in cfg.parties
    ensures GotFrom(HistOf(Run(cfg, n), p), q) <= SentTo(cfg, q, HistOf(Run(cfg, n), q), p)
    ensures GotFrom(HistOf(Run(cfg, n), p), q) == PacketsGot(Run(cfg, n).sb, Link(q, p))
    ensures SentTo(cfg, q, HistOf(Run(cfg, n), q), p) == PacketsOf(SentOn(Run(cfg, n).sb, Link(q, p)))
  {
    HistoriesAt(cfg, n);
    LinksAt(cfg, n);
    var k, l := Run(cfg, n), Link(q, p);
    assert LinkHistory(cfg, k, l) && LinkOk(k.sb, cfg.delay, l);
  }

  /** A party outside the simulation has sent nothing. */
  lemma OutsidersAreSilent(cfg: Config, n: nat, l: Link)
    requires ValidConfig(cfg) && l.sender !in cfg.parties
    ensures SentOn(Run(cfg, n).sb, l) == []
  {
    HistoriesAt(cfg, n);
    assert LinkHistory(cfg, Run(cfg, n), l);
    assert |PacketsOf(SentOn(Run(cfg, n).sb, l))| == 0;
  }

  /** `SentTo` reads nothing of the configuration but the protocol. */
  lemma {:induction false} SentToSameProg(c1: Config, c2: Config, p: PartyId, h: seq<Res>, to: PartyId)
    requires c1.prog == c2.prog
    ensures SentTo(c1, p, h, to) == SentTo(c2, p, h, to)
  {
    if h != [] { SentToSameProg(c1, c2, p, h[..|h| - 1], to); }
  }

  /** The packet that answers a receive from `q` is determined by the packets sent by `q`. */
  lemma AnswerIsNextSent(cfg: Config, p: PartyId, q: PartyId, h: seq<Res>, H: seq<Res>, sent: seq<Packet>)
    requires h <= H && |h| < |H| && Answered(cfg, p, H) && cfg.prog(p, h) == RecvFrom(q)
    requires GotFrom(H, q) <= sent
    ensures |GotFrom(h, q)| < |sent| && H[|h|] == Got(q, sent[|GotFrom(h, q)|])
  {
    assert H[..|h|] == h && Answers(cfg, p, H, |h|);
    var g := H[..|h| + 1];
    assert g[..|h|] == h && g <= H;
    GotFromPrefix(g, H, q);
    assert GotFrom(g, q) == GotFrom(h, q) + [H[|h|].packet];
    assert GotFrom(g, q)[|GotFrom(h, q)|] == GotFrom(H, q)[|GotFrom(h, q)|];
  }

  /** A call that completes in the first run has completed, with the same result, in the ended one. */
  lemma NextResultAgrees(c1: Config, n: nat, c2: Config, m: nat, p: PartyId, q: PartyId)
    requires SameProtocols(c1, c2) && Halted(c2, Run(c2, m)) && p in c1.parties && q in c1.parties
    requires HistOf(Run(c1, n), p) <= HistOf(Run(c2, m), p) && HistOf(Run(c1, n), q) <= HistOf(Run(c2, m), q)
    requires OpOf(c1, Run(c1, n), p) == RecvFrom(q)
    requires var s, l := Run(c1, n).sb, Link(q, p); |GotOn(s, l)| < |SentOn(s, l)|
    ensures var s, l, i := Run(c1, n).sb, Link(q, p), |HistOf(Run(c1, n), p)|;
      && i < |HistOf(Run(c2, m), p)|
      && HistOf(Run(c2, m), p)[i] == Got(q, SentOn(s, l)[|GotOn(s, l)|].packet)
  {
    hide Run, Wf, GotFrom, SentTo, Answered, Halted, OnlyDirect;
    var k, l := Run(c1, n), Link(q, p);
    var h, H, j := HistOf(k, p), HistOf(Run(c2, m), p), |GotOn(Run(c1, n).sb, Link(q, p))|;
    var all := SentTo(c2, q, HistOf(Run(c2, m), q), p);
    GotIsSentPrefix(c1, n, q, p);
    GotIsSentPrefix(c2, m, q, p);
    SentToSameProg(c1, c2, q, HistOf(k, q), p);
    SentToPrefix(c2, q, HistOf(k, q), HistOf(Run(c2, m), q), p);
    assert j == |GotFrom(h, q)|;
    assert PacketsOf(SentOn(k.sb, l))[j] == all[j];
    if |h| == |H| {
      assert h == H;
      EndedWaiting(c2, m, p, q);
    }
    AnsweredAt(c2, m, p);
    AnswerIsNextSent(c2, p, q, h, H, all);
  }

  /** A task that is left at a receive when the run ends has received all that was sent to it. */
  lemma EndedWaiting(cfg: Config, m: nat, p: PartyId, q: PartyId)
    requires ValidConfig(cfg) && Halted(cfg, Run(cfg, m)) && p in cfg.parties && q in cfg.parties
    requires IsReceive(OpOf(cfg, Run(cfg, m), p)) && q in Senders(cfg, OpOf(cfg, Run(cfg, m), p))
    ensures GotFrom(HistOf(Run(cfg, m), p), q) == SentTo(cfg, q, HistOf(Run(cfg, m), q), p)
  {
    var e, l := Run(cfg, m), Link(q, p);
    GotIsSentPrefix(cfg, m, q, p);
    PanicIsReal(cfg, m, p);
    assert q in Senders(cfg, OpOf(cfg, e, p));
    LinksAt(cfg, m);
    NothingInFlight(e.sb, cfg.delay, l);
  }

  /** Whatever a task of the first run has received, it has received by the end of the second. */
  lemma {:induction false} WithinEnded(c1: Config, n: nat, c2: Config, m: nat, q: PartyId)
    requires SameProtocols(c1, c2) && Halted(c2, Run(c2, m)) && q in c1.parties
    ensures HistOf(Run(c1, n), q) <= HistOf(Run(c2, m), q)
    decreases n, 1
  {
    hide Run, Wf;
    if n == 0 {
      NothingYet(c1, q);
    } else {
      WithinEnded(c1, n - 1, c2, m, q);
      if HistOf(Run(c1, n), q) != HistOf(Run(c1, n - 1), q) {
        StepWithinEnded(c1, n, c2, m, q);
      }
    }
  }

  lemma StepWithinEnded(c1: Config, n: nat, c2: Config, m: nat, p: PartyId)
    requires SameProtocols(c1, c2) && Halted(c2, Run(c2, m)) && p in c1.parties && n > 0
    requires HistOf(Run(c1, n - 1), p) <= HistOf(Run(c2, m), p) && HistOf(Run(c1, n), p) != HistOf(Run(c1, n - 1), p)
    ensures HistOf(Run(c1, n), p) <= HistOf(Run(c2, m), p)
    decreases n, 0
  {
    hide Run, Wf;
    CompletedCall(c1, n, p);
    var k := Run(c1, n - 1);
    var op, h, H := OpOf(c1, k, p), HistOf(k, p), HistOf(Run(c2, m), p);
    if op.RecvFrom? {
      if op.source !in c1.parties {
        OutsidersAreSilent(c1, n - 1, Link(op.source, p));
      } else {
        WithinEnded(c1, n - 1, c2, m, op.source);
        NextResultAgrees(c1, n - 1, c2, m, p, op.source);
      }
    } else {
      if |h| == |H| {
        assert h == H && OpOf(c2, Run(c2, m), p) == op;
        EndedOps(c2, m, p);
      }
      AnsweredAt(c2, m, p);
      assert H[..|h|] == h && Answers(c2, p, H, |h|);
    }
  }

  lemma FinishedAreParties(cfg: Config, n: nat, p: PartyId)
    requires ValidConfig(cfg)
    ensures p in Run(cfg, n).finished ==> p in cfg.parties
  {
    hide Run;
  }

  lemma LogsAt(cfg: Config, n: nat, l: Link)
    requires ValidConfig(cfg)
    ensures LinkHistory(cfg, Run(cfg, n), l)
  {
    hide Run;
    HistoriesAt(cfg, n);
  }

  /** At the end of a run every task is finished or left at a receive. */
  lemma EndedOps(cfg: Config, m: nat, p: PartyId)
    requires ValidConfig(cfg) && Halted(cfg, Run(cfg, m)) && p in cfg.parties
    ensures p in Run(cfg, m).finished <==> OpOf(cfg, Run(cfg, m), p).Finish?
    ensures p !in Run(cfg, m).finished ==> IsReceive(OpOf(cfg, Run(cfg, m), p))
  {
    if p !in Run(cfg, m).finished {
      PanicIsReal(cfg, m, p);
    }
  }

  /**
   * Delay independence: two runs of the same send-and-receive-from protocols that have ended have
   * given every party the same results and carried the same packets on every link, and either both
   * finished every task or both panicked, with the same tasks left over.
   */
  lemma DelayIndependent(c1: Config, n: nat, c2: Config, m: nat)
    requires SameProtocols(c1, c2) && Halted(c1, Run(c1, n)) && Halted(c2, Run(c2, m))
    ensures forall p :: p in c1.parties ==> HistOf(Run(c1, n), p) == HistOf(Run(c2, m), p)
    ensures Run(c1, n).finished == Run(c2, m).finished
    ensures Deadlocked(c1, Run(c1, n)) <==> Deadlocked(c2, Run(c2, m))
    ensures forall l :: PacketsGot(Run(c1, n).sb, l) == PacketsGot(Run(c2, m).sb, l)
    ensures forall l :: PacketsOf(SentOn(Run(c1, n).sb, l)) == PacketsOf(SentOn(Run(c2, m).sb, l))
  {
    hide Run, Wf, WfHistories;
    var k, e := Run(c1, n), Run(c2, m);
    forall p | p in c1.parties ensures HistOf(k, p) == HistOf(e, p) && (p in k.finished <==> p in e.finished) {
      WithinEnded(c1, n, c2, m, p);
      WithinEnded(c2, m, c1, n, p);
      EndedOps(c1, n, p);
      EndedOps(c2, m, p);
    }
    forall p ensures p in k.finished <==> p in e.finished {
      FinishedAreParties(c1, n, p);
      FinishedAreParties(c2, m, p);
    }
    forall l ensures PacketsGot(k.sb, l) == PacketsGot(e.sb, l)
      && PacketsOf(SentOn(k.sb, l)) == PacketsOf(SentOn(e.sb, l)) {
      LogsAt(c1, n, l);
      LogsAt(c2, m, l);
      if l.sender in c1.parties { SentToSameProg(c1, c2, l.sender, HistOf(k, l.sender), l.recipient); }
    }
  }

  /** So the outcome of such a protocol, in its whole, is a function of the protocol alone. */
  lemma OutcomeExists(c1: Config, c2: Config, bound: nat)
    requires SameProtocols(c1, c2) && Bounded(c1, bound)
    ensures exists n, m ::
      && Halted(c1, Run(c1, n)) && Halted(c2, Run(c2, m))
      && (forall p :: p in c1.parties ==> HistOf(Run(c1, n), p) == HistOf(Run(c2, m), p))
      && (Deadlocked(c1, Run(c1, n)) <==> Deadlocked(c2, Run(c2, m)))
  {
    var n := HaltsFrom(c1, bound, 0);
    var m := HaltsFrom(c2, bound, 0);
    DelayIndependent(c1, n, c2, m);
  }
}
