/** When the rounds of back-to-back openings cannot get mixed up, and what every run then yields. */
module OpensInStep {
  import opened Wrappers
  import opened SimTypes
  import opened SwitchboardSpec
  import opened Kernel
  import opened Causality
  import opened Links
  import opened Histories
  import opened Wakeups
  import opened Termination
  import opened DelayIndependence
  import opened Sequences
  import opened Timetable
  import opened OpenRounds

  /** On the timetable, the next event always brings a share of the round its recipient is in. */
  lemma OnTimeIsDue(cfg: Config, o: Course, k: Sim, e: ScheduledEvent, r: Sim)
    requires OnTime(cfg, o) && TickStep(cfg, o, k, e, r)
    ensures Due(cfg, k, e)
  {
    hide At, Wf, WfTime, WfLinks, WfWait, Reached, Sent, Unread, Taken, LinksOk, PartyOk, UnreadOk, Where, OnTime,
      Arrive;
    var q, p := e.link.sender, e.link.recipient;
    TickEvent(cfg, o, k, e, r);
    TakenOf(cfg, o, k, q, p);
    var i := Where(cfg, k, p).round;
    if Taken(k, q, p) == i + 1 {
      forall s | Pair(cfg, s, p) ensures Taken(k, s, p) > i {
        if s != q { OvertakenHasArrived(cfg, o, k, e, r, s); }
      }
      NotAllAhead(cfg, o, k, p);
    }
  }

  /** If a packet of the next round is about to arrive, everybody's packet of this round has. */
  lemma OvertakenHasArrived(cfg: Config, o: Course, k: Sim, e: ScheduledEvent, r: Sim, s: PartyId)
    requires OnTime(cfg, o) && TickStep(cfg, o, k, e, r)
    requires Pair(cfg, e.link.sender, e.link.recipient) && Pair(cfg, s, e.link.recipient) && s != e.link.sender
    requires 0 < Taken(k, e.link.sender, e.link.recipient)
    ensures Taken(k, e.link.sender, e.link.recipient) <= Taken(k, s, e.link.recipient)
  {
    hide At, Wf, WfTime, WfLinks, WfWait, Reached, Sent, Unread, Taken, LinksOk, PartyOk, UnreadOk, Where, OnTime,
      Arrive, LinkOk;
    var q, p := e.link.sender, e.link.recipient;
    TickEvent(cfg, o, k, e, r);
    var j := Taken(k, q, p);
    SentWithinRounds(cfg, o, k, q, p);
    UseOnTime(cfg, o, j, q, s, p);
    PairFacts(cfg, o, k, s, p);
    TripleFacts(cfg, o, k, q, s, p);
    IdleParty(cfg, o, k, p, s);
    if Reached(k, s, p) < j {
      StillFlying(cfg, k, s, p, j - 1);
    }
  }

  lemma StillFlying(cfg: Config, k: Sim, s: PartyId, p: PartyId, i: nat)
    requires LinkOk(k.sb, cfg.delay, Link(s, p)) && Reached(k, s, p) <= i < |Sent(k, s, p)|
    ensures EventOf(Link(s, p), Sent(k, s, p)[i]) in k.sb.events
  {
  }

  lemma UseOnTime(cfg: Config, o: Course, j: nat, q: PartyId, s: PartyId, p: PartyId)
    requires OnTime(cfg, o) && 0 < j < o.opens.rounds && Pair(cfg, q, p) && Pair(cfg, s, p) && q != s
    ensures Arrive(cfg, o, s, p, j - 1) <= Arrive(cfg, o, q, p, j)
  {
    hide Arrive;
  }

  lemma SentWithinRounds(cfg: Config, o: Course, k: Sim, q: PartyId, p: PartyId)
    requires Sound(cfg, o, k) && Lockstep(cfg, o, k) && Pair(cfg, q, p)
    ensures |Sent(k, q, p)| <= o.opens.rounds
  {
    hide At, Wf, WfTime, WfLinks, WfWait, Sent, LinksOk, UnreadOk, Where, ClockOk, TakesOk, QueueOk, Ahead;
    assert PartyOk(cfg, o, k, q) && SendsOk(cfg, k, q, p);
  }

  lemma NotAllAhead(cfg: Config, o: Course, k: Sim, p: PartyId)
    requires Sound(cfg, o, k) && Lockstep(cfg, o, k) && p in cfg.parties
    ensures exists s :: Pair(cfg, s, p) && Taken(k, s, p) <= Where(cfg, k, p).round
  {
    hide At, Wf, WfTime, WfLinks, WfWait, Taken, LinksOk, UnreadOk, ClockOk, TakesOk, QueueOk, SendsOk, Without;
    assert PartyOk(cfg, o, k, p);
    var others := Without(cfg.parties, p);
    WithoutCount(cfg.parties, p);
    ElementsCount(others);
    if forall s :: Pair(cfg, s, p) ==> Taken(k, s, p) > Where(cfg, k, p).round {
      assert Elements(others) <= Ahead(cfg, k, p);
      SubsetCount(Elements(others), Ahead(cfg, k, p));
    }
  }

  /** A receive from anyone takes a packet of a peer, or changes nothing but who is parked. */
  lemma AnyKeepsStep(cfg: Config, o: Course, k: Sim, p: PartyId)
    requires Sound(cfg, o, k) && Lockstep(cfg, o, k) && k.cur == Some(p) && p in cfg.parties && OpOf(cfg, k, p).RecvAny?
    ensures var r := StepTask(cfg, k, p); (forall s :: s in r.hist <==> s in cfg.parties) && Lockstep(cfg, o, r)
  {
    hide At, Wf, WfTime, WfLinks, WfWait, LinksOk, PartyOk, UnreadOk, Lockstep;
    OpAt(cfg, o, k, p);
    var r := StepTask(cfg, k, p);
    var ready := MinReady(k.sb, p, cfg.parties);
    if ready.Some? {
      QueuedIsPair(cfg, o, k, ready.value, p);
      TakeKeepsStep(cfg, o, k, p, ready.value, r);
    } else {
      QuietStep(cfg, o, k, r);
    }
  }

  /** One network call of a running party. */
  lemma CallKeepsStep(cfg: Config, o: Course, k: Sim, p: PartyId)
    requires Sound(cfg, o, k) && Lockstep(cfg, o, k) && k.cur == Some(p) && p in cfg.parties
    ensures var r := StepTask(cfg, k, p); (forall s :: s in r.hist <==> s in cfg.parties) && Lockstep(cfg, o, r)
  {
    hide At, Wf, WfTime, WfLinks, WfWait, LinksOk, PartyOk, UnreadOk, Lockstep, SendPacket, PollReceive, Plays,
      SizeFits, Reveals;
    OpAt(cfg, o, k, p);
    var op := OpOf(cfg, k, p);
    if op.Send? {
      SendKeepsStep(cfg, o, k, p, op.to, StepTask(cfg, k, p));
    } else if op.RecvAny? {
      AnyKeepsStep(cfg, o, k, p);
    } else {
      QuietStep(cfg, o, k, StepTask(cfg, k, p));
    }
  }

  lemma QueuedIsPair(cfg: Config, o: Course, k: Sim, q: PartyId, p: PartyId)
    requires Sound(cfg, o, k) && Lockstep(cfg, o, k) && Queue(k.sb, Link(q, p)) != []
    ensures Pair(cfg, q, p)
  {
    hide At, Wf, WfTime, WfWait, PartyOk, UnreadOk, SentInOrder, Airborne;
    assert LinkOk(k.sb, cfg.delay, Link(q, p));
    assert SentOn(k.sb, Link(q, p)) != [];
  }

  lemma SoundAt(cfg: Config, o: Course, n: nat)
    requires Opening(cfg, o)
    ensures Sound(cfg, o, Run(cfg, n))
  {
    hide Run, Wf, WfTime, WfLinks, WfWait;
    TimeAt(cfg, n);
    LinksAt(cfg, n);
    WaitAt(cfg, n);
  }

  /** The event delivered in step `n`, if that is an idle tick, is due. */
  ghost predicate DueAt(cfg: Config, n: int) {
    forall e :: Pops(cfg, n, e) ==> Due(cfg, Run(cfg, n), e)
  }

  lemma StepKeepsLockstep(cfg: Config, o: Course, k: Sim)
    requires Sound(cfg, o, k) && Lockstep(cfg, o, k)
    requires !Halted(cfg, k) && Idle(k) ==> Due(cfg, k, NextEvent(k.sb))
    ensures (forall p :: p in Step(cfg, k).hist <==> p in cfg.parties) && Lockstep(cfg, o, Step(cfg, k))
  {
    hide At, WfTime, WfLinks, WfWait, LinksOk, PartyOk, UnreadOk, Due, StepTask, Lockstep, Opening;
    if Halted(cfg, k) {
    } else if k.cur.Some? {
      CallKeepsStep(cfg, o, k, k.cur.value);
    } else if k.ready != [] {
      QuietStep(cfg, o, k, Step(cfg, k));
    } else {
      TickKeepsStep(cfg, o, k, NextEvent(k.sb), Step(cfg, k));
    }
  }

  lemma StepInStep(cfg: Config, o: Course, n: nat)
    requires Opening(cfg, o) && n > 0 && Lockstep(cfg, o, Run(cfg, n - 1)) && DueAt(cfg, n - 1)
    ensures Lockstep(cfg, o, Run(cfg, n))
  {
    hide Run, At, WfWakers, Lockstep, Due, Step, Sound, Opening;
    SoundAt(cfg, o, n - 1);
    RunStep(cfg, n);
    var k := Run(cfg, n - 1);
    if !Halted(cfg, k) && Idle(k) {
      assert Pops(cfg, n - 1, NextEvent(k.sb));
    }
    StepKeepsLockstep(cfg, o, k);
  }

  lemma AtTheStart(cfg: Config, o: Course)
    requires Opening(cfg, o)
    ensures Lockstep(cfg, o, Run(cfg, 0))
  {
    hide Arrive;
    var k := Run(cfg, 0);
    forall p | p in cfg.parties ensures PartyOk(cfg, o, k, p) {
      assert Ahead(cfg, k, p) == {};
    }
  }

  lemma DueOnTime(cfg: Config, o: Course, n: nat)
    requires Opening(cfg, o) && OnTime(cfg, o) && Lockstep(cfg, o, Run(cfg, n))
    ensures DueAt(cfg, n)
  {
    hide Run, At, WfWakers, WfTime, WfLinks, WfWait, LinksOk, PartyOk, UnreadOk, Due, Tick, OnTime, Lockstep;
    SoundAt(cfg, o, n);
    forall e | Pops(cfg, n, e) ensures Due(cfg, Run(cfg, n), e) {
      OnTimeIsDue(cfg, o, Run(cfg, n), e, Tick(Run(cfg, n), e));
    }
  }

  lemma {:induction false} OnTimeInStep(cfg: Config, o: Course, n: nat)
    requires Opening(cfg, o) && OnTime(cfg, o)
    ensures Lockstep(cfg, o, Run(cfg, n))
  {
    hide Run, Wf, OnTime, Lockstep, DueAt;
    if n == 0 {
      AtTheStart(cfg, o);
    } else {
      OnTimeInStep(cfg, o, n - 1);
      DueOnTime(cfg, o, n - 1);
      StepInStep(cfg, o, n);
    }
  }

  /** Every packet taken in round j is the j-th packet of its sender: its share of that round. */
  ghost predicate InRound(cfg: Config, h: seq<Res>) {
    forall i :: 0 <= i < |h| && h[i].Got? ==> |GotFrom(h[..i], h[i].sender)| == At(Peers(cfg), i).round
  }

  /** In every run, every opening of every party takes shares of that opening only. */
  ghost predicate AlwaysInRound(cfg: Config) {
    forall n: nat, p :: p in cfg.parties ==> InRound(cfg, HistOf(Run(cfg, n), p))
  }

  lemma TakenIsGotFrom(cfg: Config, o: Course, n: nat, q: PartyId, p: PartyId)
    requires Opening(cfg, o) && Pair(cfg, q, p)
    ensures Taken(Run(cfg, n), q, p) == |GotFrom(HistOf(Run(cfg, n), p), q)|
    ensures |Sent(Run(cfg, n), q, p)| == |SentTo(cfg, q, HistOf(Run(cfg, n), q), p)|
  {
    hide Run, Wf;
    GotIsSentPrefix(cfg, n, q, p);
  }

  /** The last result, if it is new and a packet, is of the round of its taker. */
  ghost predicate NewInRound(cfg: Config, k: Sim, p: PartyId, h: seq<Res>) {
    var g := HistOf(k, p);
    h == g || (|h| == |g| + 1 && h == g + [h[|g|]]
      && (h[|g|].Got? ==> Pair(cfg, h[|g|].sender, p) && Taken(k, h[|g|].sender, p) == Where(cfg, k, p).round))
  }

  lemma QueuedInRound(cfg: Config, o: Course, k: Sim, q: PartyId, p: PartyId)
    requires Sound(cfg, o, k) && Lockstep(cfg, o, k) && Queue(k.sb, Link(q, p)) != []
    ensures Pair(cfg, q, p) && Taken(k, q, p) == Where(cfg, k, p).round
  {
    hide At, Wf, WfTime, WfLinks, WfWait, LinksOk, UnreadOk, SendsOk, TakesOk, ClockOk, Ahead, Taken, Where;
    QueuedIsPair(cfg, o, k, q, p);
    assert PartyOk(cfg, o, k, p) && QueueOk(cfg, k, p, q);
  }

  /** What a send, a receive from anyone and the end of a task add to its results. */
  lemma CallResult(cfg: Config, k: Sim, p: PartyId)
    requires p in k.hist && p in cfg.parties
    requires OpOf(cfg, k, p).Send? || OpOf(cfg, k, p).RecvAny? || OpOf(cfg, k, p).Finish?
    ensures var g, r, op := HistOf(k, p), StepTask(cfg, k, p), OpOf(cfg, k, p);
      && p in r.hist
      && (op.Send? ==> HistOf(r, p) == g + [Done])
      && (op.Finish? ==> HistOf(r, p) == g)
      && (op.RecvAny? ==> var ready := MinReady(k.sb, p, cfg.parties);
            if ready.None? then HistOf(r, p) == g else exists packet :: HistOf(r, p) == g + [Got(ready.value, packet)])
  {
    hide MinReady, TakePacket, SendPacket;
    if OpOf(cfg, k, p).RecvAny? {
      var ready := MinReady(k.sb, p, cfg.parties);
      if ready.Some? { AnyTakes(cfg, k, p, ready.value); }
    }
  }

  /** A packet taken while the parties are in step is of the round of its taker. */
  lemma TakesInRound(cfg: Config, o: Course, k: Sim, p: PartyId)
    requires Sound(cfg, o, k) && Lockstep(cfg, o, k) && k.cur == Some(p) && p in cfg.parties
    ensures p in StepTask(cfg, k, p).hist && NewInRound(cfg, k, p, HistOf(StepTask(cfg, k, p), p))
  {
    hide At, Lockstep, Opening, Plays, Call, Reveals, SizeFits, Wf, WfTime, WfLinks, WfWait, StepTask, Taken, Where;
    OpAt(cfg, o, k, p);
    CallResult(cfg, k, p);
    if OpOf(cfg, k, p).RecvAny? {
      var ready := MinReady(k.sb, p, cfg.parties);
      if ready.Some? {
        QueuedIsPair(cfg, o, k, ready.value, p);
        QueuedInRound(cfg, o, k, ready.value, p);
      }
    }
  }

  lemma StepTakesInRound(cfg: Config, o: Course, k: Sim, p: PartyId)
    requires Sound(cfg, o, k) && Lockstep(cfg, o, k) && p in cfg.parties
    ensures p in Step(cfg, k).hist && NewInRound(cfg, k, p, HistOf(Step(cfg, k), p))
  {
    hide At, WfWakers, WfTime, WfLinks, WfWait, Lockstep, StepTask, Tick, Taken, Where;
    if !Halted(cfg, k) && k.cur.Some? {
      var s := k.cur.value;
      if s == p {
        TakesInRound(cfg, o, k, p);
      } else {
        CallGrows(cfg, k, s, p);
      }
    } else {
      HistStays(cfg, k);
    }
  }

  lemma HistStays(cfg: Config, k: Sim)
    requires Wf(cfg, k) && (Halted(cfg, k) || k.cur.None?)
    ensures Step(cfg, k).hist == k.hist
  {
  }

  lemma InRoundGrows(cfg: Config, g: seq<Res>, res: Res)
    requires InRound(cfg, g)
    requires res.Got? ==> |GotFrom(g, res.sender)| == At(Peers(cfg), |g|).round
    ensures InRound(cfg, g + [res])
  {
    hide At, GotFrom;
    var h := g + [res];
    forall i | 0 <= i < |h| && h[i].Got? ensures |GotFrom(h[..i], h[i].sender)| == At(Peers(cfg), i).round {
      assert h[..i] == g[..i];
      if i == |g| { assert g[..i] == g; }
    }
  }

  lemma RunTakesInRound(cfg: Config, o: Course, n: nat, p: PartyId)
    requires Opening(cfg, o) && n > 0 && p in cfg.parties && Lockstep(cfg, o, Run(cfg, n - 1))
    ensures NewInRound(cfg, Run(cfg, n - 1), p, HistOf(Run(cfg, n), p))
  {
    hide Run, At, Wf, WfTime, WfLinks, WfWait, Lockstep, Step, Sound, NewInRound, HistOf, Opening;
    SoundAt(cfg, o, n - 1);
    RunStep(cfg, n);
    StepTakesInRound(cfg, o, Run(cfg, n - 1), p);
  }

  lemma RoundGrows(cfg: Config, o: Course, n: nat, p: PartyId)
    requires Opening(cfg, o) && n > 0 && p in cfg.parties && Lockstep(cfg, o, Run(cfg, n - 1))
    requires InRound(cfg, HistOf(Run(cfg, n - 1), p))
    ensures InRound(cfg, HistOf(Run(cfg, n), p))
  {
    hide Run, At, Wf, Lockstep, Taken, InRound, GotFrom, HistOf, Opening;
    RunTakesInRound(cfg, o, n, p);
    var g, h := HistOf(Run(cfg, n - 1), p), HistOf(Run(cfg, n), p);
    if h != g {
      if h[|g|].Got? { TakenIsGotFrom(cfg, o, n - 1, h[|g|].sender, p); }
      InRoundGrows(cfg, g, h[|g|]);
    }
  }

  lemma {:induction false} OnTimeInRound(cfg: Config, o: Course, n: nat, p: PartyId)
    requires Opening(cfg, o) && OnTime(cfg, o) && p in cfg.parties
    ensures InRound(cfg, HistOf(Run(cfg, n), p))
  {
    hide Run, Wf, OnTime, Lockstep, At, GotFrom, HistOf, SizeFits, Plays;
    if n == 0 {
      NothingYet(cfg, p);
    } else {
      OnTimeInRound(cfg, o, n - 1, p);
      OnTimeInStep(cfg, o, n - 1);
      RoundGrows(cfg, o, n, p);
    }
  }

  /** An event always finds its recipient waiting for a packet. */
  lemma RecipientWaits(cfg: Config, o: Course, k: Sim, e: ScheduledEvent, r: Sim)
    requires TickStep(cfg, o, k, e, r)
    ensures var p := e.link.recipient;
      p in k.hist && p in cfg.parties && OpOf(cfg, k, p).RecvAny? && p !in k.finished && e.link in k.sb.parked
  {
    hide At, WfTime, WfLinks, WfHeap, WfWakers, LinksOk, PartyOk, UnreadOk, Reached, Sent, Unread, Taken, Arrive,
      Where, Tick, HistOf, TimerPending, Opening;
    var q, p := e.link.sender, e.link.recipient;
    TickEvent(cfg, o, k, e, r);
    TakenOf(cfg, o, k, q, p);
    SentWithinRounds(cfg, o, k, q, p);
    OpAt(cfg, o, k, p);
    IdleParty(cfg, o, k, p, q);
    assert Blocked(cfg, k, p) && ParkedProperly(cfg, k, p);
    assert Link(q, p) == e.link;
  }

  /** A packet delivered to a party that waits for one is the next thing the party takes. */
  lemma WokenTakes(cfg: Config, o: Course, k: Sim, e: ScheduledEvent, r: Sim)
    requires TickStep(cfg, o, k, e, r)
    ensures var q, p := e.link.sender, e.link.recipient;
      && r.ready == [p] && r.cur.None? && p in cfg.parties && p !in r.finished && r.hist == k.hist
      && p in r.hist && OpOf(cfg, r, p).RecvAny? && MinReady(r.sb, p, cfg.parties) == Some(q)
  {
    hide At, WfTime, WfLinks, WfWait, WfTasks, Lockstep, Opening, Plays, MinReady;
    RecipientWaits(cfg, o, k, e, r);
    OneReady(cfg, o, k, e, r);
    TickWakes(cfg, k, e, e.link.recipient);
  }

  lemma OneReady(cfg: Config, o: Course, k: Sim, e: ScheduledEvent, r: Sim)
    requires TickStep(cfg, o, k, e, r)
    ensures MinReady(r.sb, e.link.recipient, cfg.parties) == Some(e.link.sender)
  {
    hide At, Wf, WfTime, WfLinks, WfWait, LinksOk, PartyOk, UnreadOk, Taken, Where, Reached, Sent, Tick;
    var q, p := e.link.sender, e.link.recipient;
    TickEvent(cfg, o, k, e, r);
    forall s | s in cfg.parties && s != q ensures Queue(r.sb, Link(s, p)) == [] {
      TickFrame(cfg, o, k, e, r, s, p);
      if s != p { IdleParty(cfg, o, k, p, s); } else { NoSelfQueue(cfg, o, k, p); }
      assert Unread(r, s, p) == Unread(k, s, p) == [];
    }
    TickFrame(cfg, o, k, e, r, q, p);
    assert Unread(r, q, p) != [];
  }

  lemma NoSelfQueue(cfg: Config, o: Course, k: Sim, p: PartyId)
    requires Sound(cfg, o, k) && Lockstep(cfg, o, k)
    ensures Unread(k, p, p) == []
  {
    hide Lockstep;
    if Unread(k, p, p) != [] { QueuedIsPair(cfg, o, k, p, p); }
  }

  /** The two steps after an idle tick: the recipient runs, and takes the packet. */
  lemma ThenTakes(cfg: Config, o: Course, n: nat, e: ScheduledEvent)
    requires Opening(cfg, o) && Lockstep(cfg, o, Run(cfg, n)) && Pops(cfg, n, e)
    ensures var p, h := e.link.recipient, Run(cfg, n + 3).hist;
      && p in cfg.parties && p in h
      && exists packet :: h[p] == HistOf(Run(cfg, n), p) + [Got(e.link.sender, packet)]
  {
    hide Run, At, WfTime, WfLinks, WfWait, Lockstep, Tick, StepTask, Sound, WfWakers, MinReady;
    SoundAt(cfg, o, n);
    var k := Run(cfg, n);
    var r := Tick(k, e);
    WokenTakes(cfg, o, k, e, r);
    RunStep(cfg, n + 1);
    var d := Dispatch(r);
    RunStep(cfg, n + 2);
    var p := e.link.recipient;
    RunStep(cfg, n + 3);
    AnyTakes(cfg, d, p, e.link.sender);
  }

  lemma AnyTakes(cfg: Config, d: Sim, p: PartyId, q: PartyId)
    requires p in cfg.parties && p in d.hist && OpOf(cfg, d, p).RecvAny? && MinReady(d.sb, p, cfg.parties) == Some(q)
    ensures exists packet :: StepTask(cfg, d, p).hist == d.hist[p := HistOf(d, p) + [Got(q, packet)]]
  {
    hide MinReady, TakePacket;
    assert StepTask(cfg, d, p).hist == d.hist[p := HistOf(d, p) + [Got(q, Queue(d.sb, Link(q, p))[0])]];
  }

  /** If every packet is taken in its round, every packet is delivered in its round. */
  lemma DueInRound(cfg: Config, o: Course, n: nat)
    requires Opening(cfg, o) && Lockstep(cfg, o, Run(cfg, n)) && AlwaysInRound(cfg)
    ensures DueAt(cfg, n)
  {
    hide Run, Wf, Lockstep, Taken, Pops;
    forall e | Pops(cfg, n, e) ensures Due(cfg, Run(cfg, n), e) {
      var q, p := e.link.sender, e.link.recipient;
      ThenTakes(cfg, o, n, e);
      PopsPair(cfg, o, n, e);
      var h := HistOf(Run(cfg, n + 3), p);
      assert InRound(cfg, h);
      TakenIsGotFrom(cfg, o, n, q, p);
    }
  }

  lemma PopsPair(cfg: Config, o: Course, n: nat, e: ScheduledEvent)
    requires Opening(cfg, o) && Lockstep(cfg, o, Run(cfg, n)) && Pops(cfg, n, e)
    ensures Pair(cfg, e.link.sender, e.link.recipient)
  {
    hide Run, At, WfWakers, WfTime, WfLinks, WfWait, Lockstep, Tick, Sent, Reached;
    SoundAt(cfg, o, n);
    TickEvent(cfg, o, Run(cfg, n), e, Tick(Run(cfg, n), e));
  }

  lemma {:induction false} InRoundInStep(cfg: Config, o: Course, n: nat)
    requires Opening(cfg, o) && AlwaysInRound(cfg)
    ensures Lockstep(cfg, o, Run(cfg, n))
  {
    hide Run, Wf, AlwaysInRound, Lockstep, DueAt;
    if n == 0 {
      AtTheStart(cfg, o);
    } else {
      InRoundInStep(cfg, o, n - 1);
      DueInRound(cfg, o, n - 1);
      StepInStep(cfg, o, n);
    }
  }

  /** At the end of a run in step no party is left waiting. */
  lemma {:induction false} NoneIsStuck(cfg: Config, o: Course, m: nat, p: PartyId)
    requires Opening(cfg, o) && Lockstep(cfg, o, Run(cfg, m)) && Halted(cfg, Run(cfg, m)) && p in cfg.parties
    ensures Where(cfg, Run(cfg, m), p).round == o.opens.rounds
    decreases Where(cfg, Run(cfg, m), p).round
  {
    hide Run, At, Wf, WfTime, WfLinks, WfWait, Lockstep, Halted, Taken, Where, Sent, GotFrom, SentTo, Sound;
    var k := Run(cfg, m);
    SoundAt(cfg, o, m);
    EndedWhere(cfg, o, m, p);
    if Where(cfg, k, p).round != o.opens.rounds {
      NotAllAhead(cfg, o, k, p);
      var s :| Pair(cfg, s, p) && Taken(k, s, p) <= Where(cfg, k, p).round;
      TakenOf(cfg, o, k, s, p);
      EndedWaiting(cfg, m, p, s);
      TakenIsGotFrom(cfg, o, m, s, p);
      EndedWhere(cfg, o, m, s);
      EndedSent(cfg, o, k, s, p);
      NoneIsStuck(cfg, o, m, s);
    }
  }

  lemma EndedWhere(cfg: Config, o: Course, m: nat, p: PartyId)
    requires Opening(cfg, o) && Lockstep(cfg, o, Run(cfg, m)) && Halted(cfg, Run(cfg, m)) && p in cfg.parties
    ensures var k, pos := Run(cfg, m), Where(cfg, Run(cfg, m), p);
      && (pos.round == o.opens.rounds || (pos.round < o.opens.rounds && pos.sent == Peers(cfg)
        && OpOf(cfg, k, p).RecvAny?))
      && (pos.round == o.opens.rounds <==> p in k.finished)
  {
    hide Run, At, Wf, Halted, LinksOk, UnreadOk, ClockOk, Ahead, SendsOk, TakesOk, QueueOk;
    assert PartyOk(cfg, o, Run(cfg, m), p);
    OpAt(cfg, o, Run(cfg, m), p);
    EndedOps(cfg, m, p);
  }

  lemma EndedSent(cfg: Config, o: Course, k: Sim, s: PartyId, p: PartyId)
    requires Sound(cfg, o, k) && Lockstep(cfg, o, k) && Pair(cfg, s, p)
    requires Where(cfg, k, s).round == o.opens.rounds || Where(cfg, k, s).sent == Peers(cfg)
    ensures |Sent(k, s, p)| ==
      if Where(cfg, k, s).round == o.opens.rounds then o.opens.rounds else Where(cfg, k, s).round + 1
  {
    hide At, Wf, WfTime, WfLinks, WfWait, LinksOk, UnreadOk, ClockOk, Ahead, TakesOk, QueueOk, Where, Order, Sent;
    OrderBound(cfg, s, p);
    assert PartyOk(cfg, o, k, s) && SendsOk(cfg, k, s, p);
  }

  lemma {:induction false} CallsPerRound(others: nat, n: nat)
    requires others > 0
    ensures var pos := At(others, n); n == pos.round * (2 * others) + pos.sent + pos.got
  {
    if n > 0 { CallsPerRound(others, n - 1); }
  }

  lemma RoundsBound(cfg: Config, d: Opens)
    requires Plays(cfg, d)
    ensures Bounded(cfg, d.rounds * (2 * |cfg.parties|))
  {
    hide At;
    forall p, h | |h| >= d.rounds * (2 * |cfg.parties|) ensures cfg.prog(p, h).Finish? {
      var others := Without(cfg.parties, p);
      if others != [] {
        CallsPerRound(|others|, |h|);
        RoomLeft(At(|others|, |h|), |others|, |cfg.parties|, d.rounds);
      }
    }
  }

  lemma Times(a: nat, b: nat, c: nat)
    requires a <= b
    ensures a * c <= b * c
  {
  }

  lemma RoomLeft(pos: Pos, others: nat, parties: nat, rounds: nat)
    requires pos.sent <= others && pos.got < others <= parties
    ensures pos.round < rounds ==> pos.round * (2 * others) + pos.sent + pos.got < rounds * (2 * parties)
  {
    if pos.round < rounds {
      assert (pos.round + 1) * (2 * others) == pos.round * (2 * others) + 2 * others;
      Times(pos.round + 1, rounds, 2 * others);
      Times(2 * others, 2 * parties, rounds);
    }
  }

  /** At the end of a run in step every packet of every round has been taken. */
  lemma EndInStep(cfg: Config, o: Course, m: nat, q: PartyId, p: PartyId)
    requires Opening(cfg, o) && Lockstep(cfg, o, Run(cfg, m)) && Halted(cfg, Run(cfg, m)) && Pair(cfg, q, p)
    ensures p in Run(cfg, m).finished
    ensures Taken(Run(cfg, m), q, p) == Reached(Run(cfg, m), q, p) == |Sent(Run(cfg, m), q, p)| == o.opens.rounds
  {
    hide Run, At, Wf, WfTime, WfLinks, WfWait, Lockstep, Halted, Taken, Where, Sent, Reached, Sound, LinkOk;
    SoundAt(cfg, o, m);
    NoneIsStuck(cfg, o, m, p);
    NoneIsStuck(cfg, o, m, q);
    EndedWhere(cfg, o, m, p);
    TakenOf(cfg, o, Run(cfg, m), q, p);
    EndedSent(cfg, o, Run(cfg, m), q, p);
    PairFacts(cfg, o, Run(cfg, m), q, p);
    ReachedSent(cfg, Run(cfg, m), q, p);
    TakenLess(Run(cfg, m), q, p);
  }

  /** Every run of openings ends. */
  lemma OpensEnd(cfg: Config, d: Opens) returns (m: nat)
    requires Plays(cfg, d)
    ensures Halted(cfg, Run(cfg, m))
  {
    hide Run, Wf, Call;
    RoundsBound(cfg, d);
    m := HaltsFrom(cfg, d.rounds * (2 * |cfg.parties|), 0);
  }

  /** If every packet is taken in its round, the timetable has every packet in time. */
  lemma InRoundOnTime(cfg: Config, o: Course)
    requires Opening(cfg, o) && AlwaysInRound(cfg)
    ensures OnTime(cfg, o)
  {
    hide Run, Wf, AlwaysInRound, Lockstep, Arrive, Bounded, Reached, Halted;
    var m := OpensEnd(cfg, o.opens);
    InRoundInStep(cfg, o, m);
    forall j, p, q, r | p in cfg.parties && q in cfg.parties && r in cfg.parties && 0 < j < o.opens.rounds && p != r
      && q != r && p != q
      ensures Arrive(cfg, o, q, r, j - 1) <= Arrive(cfg, o, p, r, j)
    {
      EndInStep(cfg, o, m, p, r);
      TurnAtEnd(cfg, o, m, p, q, r, j);
    }
  }

  lemma TurnAtEnd(cfg: Config, o: Course, m: nat, p: PartyId, q: PartyId, r: PartyId, j: nat)
    requires Opening(cfg, o) && Lockstep(cfg, o, Run(cfg, m)) && Pair(cfg, p, r) && Pair(cfg, q, r) && p != q
    requires 0 < j < Reached(Run(cfg, m), p, r)
    ensures Arrive(cfg, o, q, r, j - 1) <= Arrive(cfg, o, p, r, j)
  {
    hide Run, Wf, Arrive, Reached, PartyOk, LinksOk;
    TripleFacts(cfg, o, Run(cfg, m), p, q, r);
  }

  /** The next packet that a party sends to `p`, when it does, is its share of its current round. */
  lemma NextShare(cfg: Config, o: Course, q: PartyId, h: seq<Res>, p: PartyId)
    requires Opening(cfg, o) && Pair(cfg, q, p)
    requires At(Peers(cfg), |h|).round < o.opens.rounds
    ensures var pos, op := At(Peers(cfg), |h|), cfg.prog(q, h);
      if op.Send? && op.to == p then pos.sent == Order(cfg, q, p) && op.packet == Reveals(o.opens, Peers(cfg), q, h)
      else pos.sent != Order(cfg, q, p)
    ensures Order(cfg, q, p) < Peers(cfg)
  {
    hide At, Without, Reveals;
    OrderBound(cfg, q, p);
    var others := Without(cfg.parties, q);
    WithoutCount(cfg.parties, q);
    if At(Peers(cfg), |h|).sent < |others| { IndexOfAt(others, At(Peers(cfg), |h|).sent); }
  }

  function Cut(h: seq<Res>, n: nat): seq<Res> { if n <= |h| then h[..n] else h }

  lemma CutPrefix(g: seq<Res>, h: seq<Res>, n: nat)
    requires g <= h && n <= |g|
    ensures Cut(h, n) == Cut(g, n) == g[..n]
  {
  }

  /** The results of the first `j` rounds. */
  function Rounds(cfg: Config, h: seq<Res>, j: nat): seq<Res> {
    Cut(h, j * (2 * Peers(cfg)))
  }

  /** The share of `q` of round `j`: what it reveals after the rounds before it. */
  function ShareOf(cfg: Config, d: Opens, q: PartyId, h: seq<Res>, j: nat): Packet {
    var before := Rounds(cfg, h, j);
    Packet(d.share(q, before), d.size(q, before))
  }

  /** What a party reveals now is its share of its current round, and stays so. */
  lemma RevealsShare(cfg: Config, o: Course, q: PartyId, g: seq<Res>, h: seq<Res>)
    requires |cfg.parties| > 1 && g <= h
    ensures Reveals(o.opens, Peers(cfg), q, g) == ShareOf(cfg, o.opens, q, h, At(Peers(cfg), |g|).round)
  {
    hide At, Cut, Peers;
    var pos := At(Peers(cfg), |g|);
    CallsPerRound(Peers(cfg), |g|);
    var start := |g| - pos.sent - pos.got;
    CutPrefix(g, h, start);
    assert Rounds(cfg, h, pos.round) == Cut(h, start);
  }

  lemma SharesStay(cfg: Config, o: Course, q: PartyId, g: seq<Res>, h: seq<Res>, j: nat)
    requires |cfg.parties| > 1 && g <= h && j * (2 * Peers(cfg)) <= |g|
    ensures ShareOf(cfg, o.opens, q, g, j) == ShareOf(cfg, o.opens, q, h, j)
  {
    hide Cut, Peers;
    CutPrefix(g, h, j * (2 * Peers(cfg)));
  }

  /** Rounds that are begun have their calls before them. */
  lemma RoundsBegun(cfg: Config, n: nat, j: nat)
    requires |cfg.parties| > 1 && j <= At(Peers(cfg), n).round
    ensures j * (2 * Peers(cfg)) <= n
  {
    hide At;
    CallsPerRound(Peers(cfg), n);
  }

  /** The i-th packet that a party has sent to another is its share of round i. */
  lemma {:induction false} SentContents(cfg: Config, o: Course, q: PartyId, h: seq<Res>, p: PartyId)
    requires Opening(cfg, o) && Pair(cfg, q, p)
    requires At(Peers(cfg), |h|).round < o.opens.rounds || At(Peers(cfg), |h|) == Pos(o.opens.rounds, 0, 0)
    ensures var sent, pos := SentTo(cfg, q, h, p), At(Peers(cfg), |h|);
      && |sent| == pos.round + (if Order(cfg, q, p) < pos.sent then 1 else 0)
      && (forall j :: 0 <= j < |sent| ==> sent[j] == ShareOf(cfg, o.opens, q, h, j))
  {
    hide Order, Opening, Plays, Call, Reveals, ShareOf;
    if h != [] {
      var g := h[..|h| - 1];
      SentContents(cfg, o, q, g, p);
      NextShare(cfg, o, q, g, p);
      RevealsShare(cfg, o, q, g, h);

      var sent := SentTo(cfg, q, g, p);
      forall j | 0 <= j < |sent| ensures ShareOf(cfg, o.opens, q, g, j) == ShareOf(cfg, o.opens, q, h, j) {
        RoundsBegun(cfg, |g|, j);
        SharesStay(cfg, o, q, g, h, j);
      }
    } else {
      assert At(Peers(cfg), 0) == Pos(0, 0, 0) && SentTo(cfg, q, [], p) == [] by { NothingCalled(cfg, q, p); }
    }
  }

  lemma NothingCalled(cfg: Config, q: PartyId, p: PartyId)
    requires |cfg.parties| > 1
    ensures At(Peers(cfg), 0) == Pos(0, 0, 0) && SentTo(cfg, q, [], p) == []
  {
  }

  lemma CourseComplete(cfg: Config, o: Course, m: nat, q: PartyId, p: PartyId)
    requires Opening(cfg, o) && OnTime(cfg, o) && Halted(cfg, Run(cfg, m)) && Pair(cfg, q, p)
    ensures p in Run(cfg, m).finished && InRound(cfg, HistOf(Run(cfg, m), p))
    ensures GotFrom(HistOf(Run(cfg, m), p), q) == seq(o.opens.rounds, j requires 0 <= j =>
      ShareOf(cfg, o.opens, q, HistOf(Run(cfg, m), q), j))
    ensures Queue(Run(cfg, m).sb, Link(q, p)) == []
  {
    hide Run, At, Wf, Lockstep, Halted, OnTime, InRound, GotFrom, SentTo;
    OnTimeInStep(cfg, o, m);
    OnTimeInRound(cfg, o, m, p);
    EndInStep(cfg, o, m, q, p);
    TakenIsGotFrom(cfg, o, m, q, p);
    GotIsSentPrefix(cfg, m, q, p);
    NoneIsStuck(cfg, o, m, q);
    AtTheEnd(cfg, o, m, q);
    SentContents(cfg, o, q, HistOf(Run(cfg, m), q), p);
  }

  lemma AtTheEnd(cfg: Config, o: Course, m: nat, q: PartyId)
    requires Opening(cfg, o) && Lockstep(cfg, o, Run(cfg, m)) && q in cfg.parties
    requires Where(cfg, Run(cfg, m), q).round == o.opens.rounds
    ensures At(Peers(cfg), |HistOf(Run(cfg, m), q)|) == Pos(o.opens.rounds, 0, 0)
  {
    hide Run, At, Wf, LinksOk, UnreadOk, ClockOk, Ahead, SendsOk, TakesOk, QueueOk;
    assert PartyOk(cfg, o, Run(cfg, m), q);
  }

  lemma InStepOnTime(cfg: Config, o: Course)
    requires Opening(cfg, o)
    ensures AlwaysInRound(cfg) <==> OnTime(cfg, o)
  {
    hide Run, Wf, OnTime, InRound, Call;
    if OnTime(cfg, o) {
      forall n: nat, p | p in cfg.parties ensures InRound(cfg, HistOf(Run(cfg, n), p)) {
        OnTimeInRound(cfg, o, n, p);
      }
    } else if AlwaysInRound(cfg) {
      InRoundOnTime(cfg, o);
    }
  }

  /** The sizes that the run ending in its m-th state comes to. */
  ghost function CourseOf(cfg: Config, d: Opens, m: int): Course {
    var k := Run(cfg, m);
    Course(d, (p: PartyId, j: nat) => SizeIn(cfg, d, k, p, j))
  }

  function SizeIn(cfg: Config, d: Opens, k: Sim, p: PartyId, j: nat): nat {
    if |cfg.parties| > 1 && p in k.hist then d.size(p, Rounds(cfg, HistOf(k, p), j)) else 0
  }

  lemma FitsTheEnd(cfg: Config, d: Opens, m: nat, p: PartyId, h: seq<Res>)
    requires Plays(cfg, d) && p in cfg.parties && h <= HistOf(Run(cfg, m), p)
    ensures SizeFits(cfg, CourseOf(cfg, d, m), p, h)
  {
    hide Run, Wf, At, Cut;
    CallsPerRound(Peers(cfg), |h|);
    var pos := At(Peers(cfg), |h|);
    var start := |h| - pos.sent - pos.got;
    CutPrefix(h, HistOf(Run(cfg, m), p), start);
    assert Rounds(cfg, HistOf(Run(cfg, m), p), pos.round) == Cut(HistOf(Run(cfg, m), p), start);
  }

  /** A run that has ended has taken its course all along. */
  lemma CourseFits(cfg: Config, d: Opens, m: nat)
    requires Plays(cfg, d) && Halted(cfg, Run(cfg, m))
    ensures Opening(cfg, CourseOf(cfg, d, m))
  {
    hide Run, Wf, Halted, SizeFits, Call;
    forall n: nat, p | p in cfg.parties ensures SizeFits(cfg, CourseOf(cfg, d, m), p, HistOf(Run(cfg, n), p)) {
      if m < n {
        HaltedStays(cfg, m, n);
      } else {
        HistoryIsPrefix(cfg, n, m, p);
      }
      FitsTheEnd(cfg, d, m, p, HistOf(Run(cfg, n), p));
    }
    assert CourseOf(cfg, d, m).opens == d;
  }

  /**
   * When back-to-back openings are safe: every opening of the run takes packets of that opening only, if
   * and only if by the timetable no share reaches a party before a share of the round before. The
   * timetable is made of the delays of the shares of the run itself, whose sizes may depend on all that
   * was opened before; it does not depend on the order in which anything is received.
   */
  lemma OpensStayInStep(cfg: Config, d: Opens, m: nat)
    requires Plays(cfg, d) && Halted(cfg, Run(cfg, m))
    ensures AlwaysInRound(cfg) <==> OnTime(cfg, CourseOf(cfg, d, m))
  {
    hide Run, Wf, OnTime, AlwaysInRound, Halted, CourseOf;
    CourseFits(cfg, d, m);
    InStepOnTime(cfg, CourseOf(cfg, d, m));
  }

  /**
   * Openings that are on time, under whatever delays: when the run has ended every party is finished,
   * it has received every other party's shares of all rounds, in order, and nothing is left over.
   */
  lemma OpensComplete(cfg: Config, d: Opens, m: nat, q: PartyId, p: PartyId)
    requires Plays(cfg, d) && Halted(cfg, Run(cfg, m)) && OnTime(cfg, CourseOf(cfg, d, m)) && Pair(cfg, q, p)
    ensures p in Run(cfg, m).finished && InRound(cfg, HistOf(Run(cfg, m), p))
    ensures GotFrom(HistOf(Run(cfg, m), p), q) == seq(d.rounds, j requires 0 <= j =>
      ShareOf(cfg, d, q, HistOf(Run(cfg, m), q), j))
    ensures Queue(Run(cfg, m).sb, Link(q, p)) == []
  {
    hide Run, Wf, OnTime, InRound, Halted, GotFrom, ShareOf;
    CourseFits(cfg, d, m);
    CourseComplete(cfg, CourseOf(cfg, d, m), m, q, p);
  }

  /** The sizes of shares do not depend on what is opened. */
  ghost predicate FixedSizes(cfg: Config, o: Course) {
    forall p, h, j: nat :: |h| == j * (2 * Peers(cfg)) ==> o.opens.size(p, h) == o.size(p, j)
  }

  /** In that case the timetable is known before the run. */
  lemma FixedSizesStayInStep(cfg: Config, o: Course)
    requires Plays(cfg, o.opens) && FixedSizes(cfg, o)
    ensures AlwaysInRound(cfg) <==> OnTime(cfg, o)
  {
    hide Run, Wf, OnTime, AlwaysInRound, Call, At;
    forall n: nat, p | p in cfg.parties ensures SizeFits(cfg, o, p, HistOf(Run(cfg, n), p)) {
      CallsPerRound(Peers(cfg), |HistOf(Run(cfg, n), p)|);
    }
    InStepOnTime(cfg, o);
  }

  /** One slow link: the packet from 0 to 2 takes ten times as long as the way round by 1. */
  function SlowLink(l: Link, size: nat): Time { if l == Link(0, 2) then 10 else 1 }

  function SlowNetwork(d: Opens): Config {
    Config([0, 1, 2], (p: PartyId, h: seq<Res>) => Call([0, 1, 2], d, p, h), SlowLink)
  }

  lemma OvertakesAt(cfg: Config, o: Course)
    requires cfg == SlowNetwork(o.opens)
    ensures Arrive(cfg, o, 0, 2, 0) == 10 && Arrive(cfg, o, 1, 2, 1) == 2
  {
    assert Without(cfg.parties, 1) == [0, 2];
    assert Begin(cfg, o, 0, 0) == Begin(cfg, o, 1, 0) == Begin(cfg, o, 2, 0) == 0;
    assert Arrive(cfg, o, 0, 1, 0) == 1 && Arrive(cfg, o, 2, 1, 0) == 1 && Arrive(cfg, o, 1, 2, 0) == 1;
    assert Latest(cfg, o, 1, 0, []) == 0;
    assert Latest(cfg, o, 1, 0, [2]) == 1;
    assert Latest(cfg, o, 1, 0, [0, 2]) == 1;
    assert Begin(cfg, o, 1, 1) == 1;
  }

  /** There, of two openings in a row, some party takes a share of the second one in the first. */
  lemma OpensCanGetMixedUp(d: Opens)
    requires d.rounds >= 2
    ensures Plays(SlowNetwork(d), d)
    ensures exists n: nat, p: PartyId ::
      p in [0, 1, 2] && p in Run(SlowNetwork(d), n).hist
      && !InRound(SlowNetwork(d), HistOf(Run(SlowNetwork(d), n), p))
  {
    hide Run, Wf, InRound, Arrive, Halted, OnTime;
    var cfg := SlowNetwork(d);
    var m := OpensEnd(cfg, d);
    var o := CourseOf(cfg, d, m);
    OvertakesAt(cfg, o);
    assert !OnTime(cfg, o) by {
      if OnTime(cfg, o) { UseOnTime(cfg, o, 1, 1, 0, 2); }
    }
    OpensStayInStep(cfg, d, m);
    var n: nat, p: PartyId :| p in cfg.parties && !InRound(cfg, HistOf(Run(cfg, n), p));
    assert p in Run(cfg, n).hist;
  }
}
