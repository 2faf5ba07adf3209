/** What the links carried is what the parties' protocols said, in every run. */
module Histories {
  import opened Wrappers
  import opened SimTypes
  import opened SwitchboardSpec
  import opened Kernel
  import opened Links

  /** The packets from `q` among the results `h`, oldest first. */
  function GotFrom(h: seq<Res>, q: PartyId): seq<Packet> {
    if h == [] then []
    else
      var last := h[|h| - 1];
      GotFrom(h[..|h| - 1], q) + if last.Got? && last.sender == q then [last.packet] else []
  }

  /** The packets that `p` has sent to `to` by the time its calls have returned `h`. */
  function SentTo(cfg: Config, p: PartyId, h: seq<Res>, to: PartyId): seq<Packet> {
    if h == [] then []
    else
      var op := cfg.prog(p, h[..|h| - 1]);
      SentTo(cfg, p, h[..|h| - 1], to) + if op.Send? && op.to == to then [op.packet] else []
  }

  ghost predicate LinkHistory(cfg: Config, k: Sim, l: Link) {
    && PacketsGot(k.sb, l) == (if l.recipient in cfg.parties then GotFrom(HistOf(k, l.recipient), l.sender) else [])
    && PacketsOf(SentOn(k.sb, l)) ==
       (if l.sender in cfg.parties then SentTo(cfg, l.sender, HistOf(k, l.sender), l.recipient) else [])
  }

  ghost predicate WfHistories(cfg: Config, k: Sim) {
    forall l :: LinkHistory(cfg, k, l)
  }

  lemma Grow(cfg: Config, p: PartyId, h: seq<Res>, res: Res, q: PartyId)
    ensures GotFrom(h + [res], q) == GotFrom(h, q) + if res.Got? && res.sender == q then [res.packet] else []
    ensures var op := cfg.prog(p, h);
      SentTo(cfg, p, h + [res], q) == SentTo(cfg, p, h, q) + if op.Send? && op.to == q then [op.packet] else []
  {
    assert (h + [res])[..|h|] == h;
  }

  /** The packets by which a call of `p` that returned `res` extends what was received on `l`. */
  function NewlyGot(p: PartyId, res: Res, l: Link): seq<Packet> {
    if l.recipient == p && res.Got? && res.sender == l.sender then [res.packet] else []
  }

  /** The packets by which the call `op` of `p` extends what was sent on `l`. */
  function NewlySent(p: PartyId, op: Op, l: Link): seq<Packet> {
    if l.sender == p && op.Send? && op.to == l.recipient then [op.packet] else []
  }

  /** One call of `p`: what it sent and received joins the logs of the links concerned. */
  lemma AdvanceKeepsHistories(cfg: Config, k: Sim, p: PartyId, sb: State, res: Res)
    requires p in cfg.parties && WfHistories(cfg, k)
    requires forall l :: PacketsGot(sb, l) == PacketsGot(k.sb, l) + NewlyGot(p, res, l)
    requires forall l :: PacketsOf(SentOn(sb, l)) == PacketsOf(SentOn(k.sb, l)) + NewlySent(p, OpOf(cfg, k, p), l)
    ensures WfHistories(cfg, Advance(k, p, sb, res))
  {
    hide GotFrom, SentTo, PacketsGot, PacketsOf;
    var r := Advance(k, p, sb, res);
    forall l ensures LinkHistory(cfg, r, l) {
      assert LinkHistory(cfg, k, l);
      if l.recipient == p { Grow(cfg, p, HistOf(k, p), res, l.sender); }
      if l.sender == p { Grow(cfg, p, HistOf(k, p), res, l.recipient); }
    }
  }

  lemma SameHistories(cfg: Config, k: Sim, r: Sim)
    requires Wf(cfg, k) && WfHistories(cfg, k)
    requires r.hist == k.hist && r.sb.sent == k.sb.sent && r.sb.got == k.sb.got
    ensures WfHistories(cfg, r)
  {
    forall l ensures LinkHistory(cfg, r, l) {
      assert LinkHistory(cfg, k, l);
      assert PacketsGot(r.sb, l) == PacketsGot(k.sb, l);
    }
  }

  lemma SendLogs(s: State, delay: (Link, nat) -> Time, m: Link, packet: Packet, l: Link)
    ensures PacketsOf(SentOn(SendPacket(s, delay, m, packet), l)) ==
            PacketsOf(SentOn(s, l)) + if l == m then [packet] else []
  {
  }

  lemma TakeLogs(s: State, m: Link, l: Link)
    requires Queue(s, m) != []
    ensures PacketsGot(TakePacket(s, m), l) == PacketsGot(s, l) + if l == m then [Queue(s, m)[0]] else []
  {
  }

  /** A poll that takes a packet logs it on its link; any other poll logs nothing. */
  lemma PollLogs(s: State, p: PartyId, senders: seq<PartyId>, deadline: Option<Time>, blame: Option<PartyId>, l: Link)
    ensures var (t, res) := PollReceive(s, p, senders, deadline, blame);
      && t.sent == s.sent
      && PacketsGot(t, l) == PacketsGot(s, l) + if res.Some? then NewlyGot(p, res.value, l) else []
  {
    hide MinReady, LinksTo;
    var ready := MinReady(s, p, senders);
    if ready.Some? {
      TakeLogs(UnparkAny(s, p, senders), Link(ready.value, p), l);
    }
  }

  lemma SettleKeepsHistories(cfg: Config, k: Sim, p: PartyId, senders: seq<PartyId>, deadline: Option<Time>,
        blame: Option<PartyId>)
    requires Wf(cfg, k) && WfHistories(cfg, k) && k.cur == Some(p) && !OpOf(cfg, k, p).Send?
    ensures WfHistories(cfg, Settle(k, p, PollReceive(k.sb, p, senders, deadline, blame)))
  {
    var poll := PollReceive(k.sb, p, senders, deadline, blame);
    forall l ensures PacketsGot(poll.0, l) ==
      PacketsGot(k.sb, l) + if poll.1.Some? then NewlyGot(p, poll.1.value, l) else []
    {
      PollLogs(k.sb, p, senders, deadline, blame, l);
    }
    if poll.1.Some? {
      AdvanceKeepsHistories(cfg, k, p, poll.0, poll.1.value);
    } else {
      SameHistories(cfg, k, Settle(k, p, poll));
    }
  }

  lemma ArmKeepsHistories(cfg: Config, k: Sim, p: PartyId)
    requires Wf(cfg, k) && WfHistories(cfg, k) && k.cur == Some(p)
    ensures Wf(cfg, Armed(cfg, k, p)) && WfHistories(cfg, Armed(cfg, k, p))
    ensures Armed(cfg, k, p).hist == k.hist && Armed(cfg, k, p).cur == Some(p)
  {
    ArmKeeps(cfg, k, p);
    ArmFrame(cfg, k, p);
    SameHistories(cfg, k, Armed(cfg, k, p));
  }

  lemma ReceiveKeepsHistories(cfg: Config, k: Sim, p: PartyId)
    requires Wf(cfg, k) && WfHistories(cfg, k) && k.cur == Some(p) && IsReceive(OpOf(cfg, k, p))
    ensures Wf(cfg, StepTask(cfg, k, p)) && WfHistories(cfg, StepTask(cfg, k, p))
  {
    ReceiveKeepsTasks(cfg, k, p);
    OneReceive(cfg, k, p);
    ArmKeepsHistories(cfg, k, p);
    var armed, op := Armed(cfg, k, p), OpOf(cfg, k, p);
    SettleKeepsHistories(cfg, armed, p, Senders(cfg, op), DeadlineOf(cfg, k, p), Blame(op));
  }

  lemma CallKeepsHistories(cfg: Config, k: Sim, p: PartyId)
    requires Wf(cfg, k) && WfHistories(cfg, k) && k.cur == Some(p) && !IsReceive(OpOf(cfg, k, p))
    ensures Wf(cfg, StepTask(cfg, k, p)) && WfHistories(cfg, StepTask(cfg, k, p))
  {
    CallKeepsTasks(cfg, k, p);
    var op := OpOf(cfg, k, p);
    if op.Send? {
      var sb := SendPacket(k.sb, cfg.delay, Link(p, op.to), op.packet);
      forall l ensures PacketsOf(SentOn(sb, l)) == PacketsOf(SentOn(k.sb, l)) + NewlySent(p, op, l) {
        SendLogs(k.sb, cfg.delay, Link(p, op.to), op.packet, l);
      }
      AdvanceKeepsHistories(cfg, k, p, sb, Done);
    } else if op.Record? {
      AdvanceKeepsHistories(cfg, k, p, RecordMark(k.sb, p, op.mark), Done);
    } else {
      SameHistories(cfg, k, StepTask(cfg, k, p));
    }
  }

  lemma StepKeepsHistories(cfg: Config, k: Sim)
    requires Wf(cfg, k) && WfHistories(cfg, k)
    ensures Wf(cfg, Step(cfg, k)) && WfHistories(cfg, Step(cfg, k))
  {
    StepKeepsTasks(cfg, k);
    if Halted(cfg, k) {
    } else if k.cur.Some? {
      if IsReceive(OpOf(cfg, k, k.cur.value)) {
        ReceiveKeepsHistories(cfg, k, k.cur.value);
      } else {
        CallKeepsHistories(cfg, k, k.cur.value);
      }
    } else {
      SameHistories(cfg, k, Step(cfg, k));
    }
  }

  /** In every run, what a link carried is what its two ends sent and received. */
  lemma {:induction false} HistoriesAt(cfg: Config, n: nat)
    requires ValidConfig(cfg)
    ensures WfHistories(cfg, Run(cfg, n))
  {
    if n > 0 {
      hide Step, Wf, WfHistories;
      HistoriesAt(cfg, n - 1);
      StepKeepsHistories(cfg, Run(cfg, n - 1));
    } else {
      var k := Run(cfg, 0);
      forall l ensures LinkHistory(cfg, k, l) {}
    }
  }

  /** What the call may return. */
  predicate Fits(cfg: Config, op: Op, res: Res) {
    match op
    case RecvFrom(q) => res.Got? && res.sender == q
    case RecvFromTimeout(q, _) => (res.Got? && res.sender == q) || res == TimedOut(Some(q))
    case RecvAny => res.Got? && res.sender in cfg.parties
    case RecvAnyTimeout(_) => (res.Got? && res.sender in cfg.parties) || res == TimedOut(None)
    case Finish => false
    case _ => res.Done?
  }

  /** The result at position `i` answers the call made there. */
  ghost predicate Answers(cfg: Config, p: PartyId, h: seq<Res>, i: nat)
    requires i < |h|
  {
    Fits(cfg, cfg.prog(p, h[..i]), h[i])
  }

  ghost predicate Answered(cfg: Config, p: PartyId, h: seq<Res>) {
    forall i :: 0 <= i < |h| ==> Answers(cfg, p, h, i)
  }

  /** A call of a task extends its own results by at most one that fits it, and nobody else's. */
  lemma CallGrows(cfg: Config, k: Sim, p: PartyId, q: PartyId)
    requires Wf(cfg, k) && k.cur == Some(p) && q in cfg.parties
    ensures var r := StepTask(cfg, k, p);
      && q in r.hist && HistOf(k, q) <= HistOf(r, q) && |HistOf(r, q)| <= |HistOf(k, q)| + 1
      && (q != p ==> HistOf(r, q) == HistOf(k, q))
      && (|HistOf(r, q)| > |HistOf(k, q)| ==> Fits(cfg, OpOf(cfg, k, q), HistOf(r, q)[|HistOf(k, q)|]))
  {
    hide SendPacket, TakePacket, WfHeap, WfWakers, Arm;
    if IsReceive(OpOf(cfg, k, p)) {
      hide PollReceive;
      OneReceive(cfg, k, p);
      ArmFrame(cfg, k, p);
    }
  }

  lemma StepGrows(cfg: Config, k: Sim, q: PartyId)
    requires Wf(cfg, k) && q in cfg.parties
    ensures q in k.hist && q in Step(cfg, k).hist && HistOf(k, q) <= HistOf(Step(cfg, k), q)
    ensures |HistOf(Step(cfg, k), q)| <= |HistOf(k, q)| + 1
    ensures |HistOf(Step(cfg, k), q)| > |HistOf(k, q)| ==>
      Fits(cfg, OpOf(cfg, k, q), HistOf(Step(cfg, k), q)[|HistOf(k, q)|])
  {
    hide StepTask, Fits, WfHeap, WfWakers;
    if k.cur.Some? {
      CallGrows(cfg, k, k.cur.value, q);
    }
  }

  /** Results only accumulate. */
  lemma HistoryGrows(cfg: Config, n: nat, q: PartyId)
    requires ValidConfig(cfg) && q in cfg.parties && n > 0
    ensures HistOf(Run(cfg, n - 1), q) <= HistOf(Run(cfg, n), q)
    ensures |HistOf(Run(cfg, n), q)| <= |HistOf(Run(cfg, n - 1), q)| + 1
    ensures |HistOf(Run(cfg, n), q)| > |HistOf(Run(cfg, n - 1), q)| ==>
            Answers(cfg, q, HistOf(Run(cfg, n), q), |HistOf(Run(cfg, n - 1), q)|)
  {
    hide Run, Step, Wf, Fits;
    RunStep(cfg, n);
    StepGrows(cfg, Run(cfg, n - 1), q);
    var g, h := HistOf(Run(cfg, n - 1), q), HistOf(Run(cfg, n), q);
    assert h[..|g|] == g;
  }

  lemma AnsweredGrows(cfg: Config, p: PartyId, h: seq<Res>, g: seq<Res>)
    requires Answered(cfg, p, h) && h <= g && |g| <= |h| + 1
    requires |g| > |h| ==> Answers(cfg, p, g, |h|)
    ensures Answered(cfg, p, g)
  {
    forall i | 0 <= i < |g| ensures Answers(cfg, p, g, i) {
      if i < |h| { assert h[..i] == g[..i] && Answers(cfg, p, h, i); }
    }
  }

  lemma NothingYet(cfg: Config, p: PartyId)
    ensures HistOf(Run(cfg, 0), p) == []
  {
  }

  /** In every run each call has returned what a call of its kind may return. */
  lemma {:induction false} AnsweredAt(cfg: Config, n: nat, p: PartyId)
    requires ValidConfig(cfg) && p in cfg.parties
    ensures Answered(cfg, p, HistOf(Run(cfg, n), p))
  {
    hide Run, Wf, Answers;
    if n == 0 {
      NothingYet(cfg, p);
    } else {
      AnsweredAt(cfg, n - 1, p);
      HistoryGrows(cfg, n, p);
      AnsweredGrows(cfg, p, HistOf(Run(cfg, n - 1), p), HistOf(Run(cfg, n), p));
    }
  }

  lemma {:induction false} HistoryIsPrefix(cfg: Config, n: nat, m: nat, q: PartyId)
    requires ValidConfig(cfg) && q in cfg.parties && n <= m
    ensures HistOf(Run(cfg, n), q) <= HistOf(Run(cfg, m), q)
    decreases m
  {
    hide Run, Wf;
    if n < m {
      HistoryIsPrefix(cfg, n, m - 1, q);
      HistoryGrows(cfg, m, q);
    }
  }

  lemma {:induction false} GotFromPrefix(g: seq<Res>, h: seq<Res>, q: PartyId)
    requires g <= h
    ensures GotFrom(g, q) <= GotFrom(h, q)
    decreases |h|
  {
    if |g| == |h| {
      assert g == h;
    } else {
      GotFromPrefix(g, h[..|h| - 1], q);
    }
  }

  lemma {:induction false} SentToPrefix(cfg: Config, p: PartyId, g: seq<Res>, h: seq<Res>, to: PartyId)
    requires g <= h
    ensures SentTo(cfg, p, g, to) <= SentTo(cfg, p, h, to)
    decreases |h|
  {
    if |g| == |h| {
      assert g == h;
    } else {
      SentToPrefix(cfg, p, g, h[..|h| - 1], to);
    }
  }
}
