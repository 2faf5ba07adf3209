/**
 * A run in which a stale timer does harm: it fires at the deadline of a later receive, just before a
 * packet that is due at the same instant.
 */
module StaleExample {
  import opened Wrappers
  import opened SimTypes
  import opened SwitchboardSpec
  import opened Kernel
  import opened TimedReceive
  import opened StaleTimers
  import opened StaleVerdict
  import opened TwoParties

  const FIRST := Packet([7], 2)
  const SECOND := Packet([8], 5)

  /** Party 0 waits five instants for a packet, and then three for another one. */
  function Program(p: PartyId, h: seq<Res>): Op {
    if |h| >= 2 then Finish
    else if p == 0 then RecvFromTimeout(1, if h == [] then 5 else 3)
    else Send(0, if h == [] then FIRST else SECOND)
  }

  /** A packet takes as many instants as it has bytes. */
  function Example(): Config { Config([0, 1], Program, (l, size) => size) }

  const STALE := ScheduledEvent(5, 0, LinkTo(0), Timer)
  const EARLY := ScheduledEvent(2, 1, LinkTo(0), Delivery(FIRST))
  const LATE := ScheduledEvent(5, 2, LinkTo(0), Delivery(SECOND))
  const LIVE := ScheduledEvent(5, 3, LinkTo(0), Timer)

  const WAITING := NEW.(timer := Some(STALE), parked := true)

  lemma WaitsOnce(c: Config, x: bool)
    requires c == Example()
    ensures Shows(c, x, 1, Board(NEW, NEW, [1], Some(0), {}, 0))
    ensures Shows(c, x, 2, Board(WAITING, NEW, [1], None, {STALE}, 1))
    ensures Shows(c, x, 3, Board(WAITING, NEW, [], Some(1), {STALE}, 1))
  {
    hide Shows, Shown;
    AtFirst(c, x);
    Begins(c, x, 0, Board(NEW, NEW, [0, 1], None, {}, 0), 0);
    assert [0, 1][1..] == [1] && [1][1..] == [];
    AllLive(x, Board(NEW, NEW, [1], Some(0), {}, 0));
    Sleeps(c, x, 1, Board(NEW, NEW, [1], Some(0), {}, 0), 0, 5);
    assert {} + {STALE} == {STALE};
    AllLive(x, Board(WAITING, NEW, [1], None, {STALE}, 1));
    Begins(c, x, 2, Board(WAITING, NEW, [1], None, {STALE}, 1), 1);
    AllLive(x, Board(WAITING, NEW, [], Some(1), {STALE}, 1));
  }

  /** Both packets are under way. */
  function Sending(h: seq<Res>, last: Time, events: set<ScheduledEvent>, nextSeq: nat): Board {
    Board(WAITING.(last := Some(last)), NEW.(h := h), [], Some(1), events, nextSeq)
  }

  const ALL_SENT := Board(WAITING.(last := Some(5)), NEW.(h := [Done, Done], done := true), [], None,
    {STALE, EARLY, LATE}, 3)

  lemma SendsBoth(c: Config, x: bool)
    requires c == Example()
    ensures Shows(c, x, 4, Sending([Done], 2, {STALE, EARLY}, 2))
    ensures Shows(c, x, 5, Sending([Done, Done], 5, {STALE, EARLY, LATE}, 3))
    ensures Shows(c, x, 6, ALL_SENT)
  {
    hide Shows, Shown;
    WaitsOnce(c, x);
    Posts(c, x, 3, Board(WAITING, NEW, [], Some(1), {STALE}, 1), 1, FIRST);
    assert NEW.h + [Done] == [Done] && [Done] + [Done] == [Done, Done];
    assert {STALE} + {EARLY} == {STALE, EARLY} && {STALE, EARLY} + {LATE} == {STALE, EARLY, LATE};
    AllLive(x, Sending([Done], 2, {STALE, EARLY}, 2));
    Posts(c, x, 4, Sending([Done], 2, {STALE, EARLY}, 2), 1, SECOND);
    AllLive(x, Sending([Done, Done], 5, {STALE, EARLY, LATE}, 3));
    Ends(c, x, 5, Sending([Done, Done], 5, {STALE, EARLY, LATE}, 3), 1);
    AllLive(x, ALL_SENT);
  }

  /** What is still to come when the first receive has returned; with cancelled timers its own is not. */
  function Remaining(x: bool): set<ScheduledEvent> { if x then {LATE} else {STALE, LATE} }

  const SERVED := Side([Got(1, FIRST)], None, false, [], 2, Some(5), false)

  function Resolved(x: bool): Board {
    Board(SERVED, ALL_SENT.one, [], Some(0), Remaining(x), 3)
  }

  /** The first packet is there: the first receive returns it, and leaves its timer behind. */
  lemma TakesFirst(c: Config, x: bool)
    requires c == Example()
    ensures ValidConfig(c) && !Idle(At(c, x, 7)) && !Idle(At(c, x, 8)) && Shows(c, x, 9, Resolved(x))
  {
    hide Shows, Shown, At;
    SendsBoth(c, x);
    Serves(c, x, 6, ALL_SENT, 0, EARLY, 5);
    assert NEW.h + [Got(1, FIRST)] == [Got(1, FIRST)];
    assert {STALE, EARLY, LATE} - {EARLY} == {STALE, LATE};
    OwnTimerGoes(x);
  }

  lemma OwnTimerGoes(x: bool)
    ensures Shown(x, Resolved(false)) == Resolved(x)
  {
    assert Shown(true, Resolved(false)).events == {LATE};
  }

  /** The second receive waits. */
  function Again(x: bool): Board {
    Board(SERVED.(timer := Some(LIVE), parked := true), ALL_SENT.one, [], None, Remaining(x) + {LIVE}, 4)
  }

  lemma SecondReceive(c: Config, x: bool)
    requires c == Example()
    ensures Shows(c, x, 10, Again(x))
  {
    hide Shows, Shown, At;
    TakesFirst(c, x);
    Sleeps(c, x, 9, Resolved(x), 0, 3);
    AllLive(x, Again(x));
  }

  /** The event that comes first decides the second receive: the stale timer if it is there. */
  /** What party 0 receives, without stale timers and with them. */
  function Outcome(x: bool): seq<Res> { [Got(1, FIRST), if x then Got(1, SECOND) else TimedOut(Some(1))] }

  lemma FirstDecides(c: Config, x: bool)
    requires c == Example()
    ensures ValidConfig(c) && 0 in At(c, x, 13).hist
    ensures HistOf(At(c, x, 13), 0) == Outcome(x)
  {
    hide Shows, At;
    SecondReceive(c, x);
    var e := if x then LATE else STALE;
    assert First(Again(x), e);
    Serves(c, x, 10, Again(x), 0, e, 3);
    var r := Shown(x, With(Again(x), 0, Served(Of(Again(x), 0), 0, e)).(cur := Some(0),
      events := Again(x).events - {e}));
    ReadOff(c, x, 13, r);
  }

  /** By step `n` the second receive has timed out, but has returned the packet if timers are cancelled. */
  ghost predicate HarmDone(c: Config, n: int) {
    && 0 in Run(c, n).hist && HistOf(Run(c, n), 0) == [Got(1, FIRST), TimedOut(Some(1))]
    && 0 in RunCancelling(c, n).hist && HistOf(RunCancelling(c, n), 0) == [Got(1, FIRST), Got(1, SECOND)]
  }

  /** Up to its tenth state nothing is overtaken in the run. */
  lemma NotBefore(c: Config, i: nat)
    requires c == Example() && i < 10
    ensures ValidConfig(c) && !Overtakes(c, Run(c, i))
  {
    hide Shows, Run;
    AtFirst(c, false);
    WaitsOnce(c, false);
    SendsBoth(c, false);
    TakesFirst(c, false);
    if i == 7 || i == 8 {
    } else {
      NothingOvertaken(c, i,
        if i == 0 then Board(NEW, NEW, [0, 1], None, {}, 0)
        else if i == 1 then Board(NEW, NEW, [1], Some(0), {}, 0)
        else if i == 2 then Board(WAITING, NEW, [1], None, {STALE}, 1)
        else if i == 3 then Board(WAITING, NEW, [], Some(1), {STALE}, 1)
        else if i == 4 then Sending([Done], 2, {STALE, EARLY}, 2)
        else if i == 5 then Sending([Done, Done], 5, {STALE, EARLY, LATE}, 3)
        else if i == 6 then ALL_SENT else Resolved(false));
    }
  }

  lemma OvertakesAtTen(c: Config)
    requires c == Example()
    ensures ValidConfig(c) && Overtakes(c, Run(c, 10)) && NextEvent(Run(c, 10).sb) == STALE
    ensures var k := Run(c, 10); 0 in k.hist && 0 in k.wait && PacketDue(c, k, 0)
  {
    hide Run, Step;
    SecondReceive(c, false);
    var k := Run(c, 10);
    assert k.sb.events == {STALE, LATE} + {LIVE};
    assert IsNext(k.sb, STALE);
    NextIsUnique(k.sb, STALE);
    assert Coincides(c, k);
    assert LATE in LiveEvents(k) && Before(LATE, TimerOf(k, 0));
    assert LATE in k.sb.events && LATE.kind.Delivery? && Awaits(c, k, 0, LATE.link);
  }

  /**
   * The claim that stale timers do no harm does not hold without a condition: here the timer of the
   * first receive makes the second one time out, at the instant at which a packet is due that the
   * second receive returns when timers are cancelled.
   */
  lemma StaleTimerCanDoHarm(c: Config)
    requires c == Example()
    ensures ValidConfig(c) && OvertakesPacketFirst(c, 10, 0) && exists n :: HarmDone(c, n)
  {
    hide Run, RunCancelling, Wf, Overtakes, PacketDue;
    FirstDecides(c, false);
    FirstDecides(c, true);
    assert HarmDone(c, 13);
    OvertakesAtTen(c);
    forall i: nat | i < 10 ensures !Overtakes(c, Run(c, i)) { NotBefore(c, i); }
  }
}
