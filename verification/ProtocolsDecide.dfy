/**
 * When a stale timer gets ahead of live events none of which is a packet for the receive it wakes, that
 * receive has the same result as without stale timers. Whether anything else changes is not decided by
 * the state, nor by the run up to it: here are two protocols that do the same until then, one with
 * which the two simulators end with the same results and one with which they do not.
 */
module ProtocolsDecide {
  import opened Wrappers
  import opened SimTypes
  import opened SwitchboardSpec
  import opened Kernel
  import opened Termination
  import opened Histories
  import opened TimedReceive
  import opened StaleTimers
  import opened StaleVerdict
  import opened TwoParties

  const FIRST := Packet([7], 2)
  const SECOND := Packet([8], 1)

  /**
   * Party 0 waits five instants for a packet, and then three for another one; party 1 sends one and
   * waits five instants. With `more` party 0 sends a packet then, and party 1 waits one more instant.
   */
  function Program(more: bool): (PartyId, seq<Res>) -> Op {
    (p: PartyId, h: seq<Res>) =>
      if |h| == 0 then if p == 0 then RecvFromTimeout(1, 5) else Send(0, FIRST)
      else if |h| == 1 then if p == 0 then RecvFromTimeout(1, 3) else RecvFromTimeout(0, 5)
      else if |h| == 2 && more then if p == 0 then Send(1, SECOND) else RecvFromTimeout(0, 1)
      else Finish
  }

  /** A packet takes as many instants as it has bytes. */
  function Example(more: bool): Config { Config([0, 1], Program(more), (l, size) => size) }

  ghost predicate IsExample(c: Config, more: bool) { c == Example(more) }

  const STALE := ScheduledEvent(5, 0, LinkTo(0), Timer)
  const EARLY := ScheduledEvent(2, 1, LinkTo(0), Delivery(FIRST))
  const OTHER := ScheduledEvent(5, 2, LinkTo(1), Timer)
  const LIVE := ScheduledEvent(5, 3, LinkTo(0), Timer)

  const WAITING := NEW.(timer := Some(STALE), parked := true)
  const EXPECTING := WAITING.(last := Some(2))
  const WATCHING := NEW.(h := [Done], timer := Some(OTHER), parked := true)

  lemma Begin(c: Config, more: bool, x: bool)
    requires IsExample(c, more)
    ensures Shows(c, x, 0, Board(NEW, NEW, [0, 1], None, {}, 0))
    ensures Shows(c, x, 1, Board(NEW, NEW, [1], Some(0), {}, 0))
    ensures Shows(c, x, 2, Board(WAITING, NEW, [1], None, {STALE}, 1))
    ensures Shows(c, x, 3, Board(WAITING, NEW, [], Some(1), {STALE}, 1))
  {
    hide Shows, Shown;
    AtFirst(c, x);
    Begins(c, x, 0, Board(NEW, NEW, [0, 1], None, {}, 0), 0);
    assert [0, 1][1..] == [1] && [1][1..] == [];
    AllLive(x, Board(NEW, NEW, [1], Some(0), {}, 0));
    Sleeps(c, x, 1, Board(NEW, NEW, [1], Some(0), {}, 0), 0, 5);
    assert {} + {STALE} == {STALE};
    AllLive(x, Board(WAITING, NEW, [1], None, {STALE}, 1));
    Begins(c, x, 2, Board(WAITING, NEW, [1], None, {STALE}, 1), 1);
    AllLive(x, Board(WAITING, NEW, [], Some(1), {STALE}, 1));
  }

  const BOTH_WAIT := Board(EXPECTING, WATCHING, [], None, {STALE, EARLY, OTHER}, 3)

  lemma BothWait(c: Config, more: bool, x: bool)
    requires IsExample(c, more)
    ensures Shows(c, x, 4, Board(EXPECTING, NEW.(h := [Done]), [], Some(1), {STALE, EARLY}, 2))
    ensures Shows(c, x, 5, BOTH_WAIT)
  {
    hide Shows, Shown;
    Begin(c, more, x);
    Posts(c, x, 3, Board(WAITING, NEW, [], Some(1), {STALE}, 1), 1, FIRST);
    assert NEW.h + [Done] == [Done];
    assert {STALE} + {EARLY} == {STALE, EARLY} && {STALE, EARLY} + {OTHER} == {STALE, EARLY, OTHER};
    AllLive(x, Board(EXPECTING, NEW.(h := [Done]), [], Some(1), {STALE, EARLY}, 2));
    Sleeps(c, x, 4, Board(EXPECTING, NEW.(h := [Done]), [], Some(1), {STALE, EARLY}, 2), 1, 5);
    AllLive(x, BOTH_WAIT);
  }

  /** What is pending when the first receive of party 0 has returned; with cancelled timers its own is not. */
  function Remaining(x: bool): set<ScheduledEvent> { if x then {OTHER} else {STALE, OTHER} }

  const SERVED := Side([Got(1, FIRST)], None, false, [], 2, Some(2), false)

  function Resolved(x: bool): Board { Board(SERVED, WATCHING, [], Some(0), Remaining(x), 3) }

  lemma TakesFirst(c: Config, more: bool, x: bool)
    requires IsExample(c, more)
    ensures ValidConfig(c) && !Idle(At(c, x, 6)) && !Idle(At(c, x, 7)) && Shows(c, x, 8, Resolved(x))
  {
    hide Shows, Shown, At;
    BothWait(c, more, x);
    Serves(c, x, 5, BOTH_WAIT, 0, EARLY, 5);
    assert NEW.h + [Got(1, FIRST)] == [Got(1, FIRST)];
    assert {STALE, EARLY, OTHER} - {EARLY} == {STALE, OTHER};
    OwnTimerGoes(x);
  }

  lemma OwnTimerGoes(x: bool)
    ensures Shown(x, Resolved(false)) == Resolved(x)
  {
    assert Shown(true, Resolved(false)).events == {OTHER};
  }

  const AGAIN := SERVED.(timer := Some(LIVE), parked := true)

  /** Party 0 waits for the second time. */
  function Fork(x: bool): Board { Board(AGAIN, WATCHING, [], None, Remaining(x) + {LIVE}, 4) }

  lemma WaitsAgain(c: Config, more: bool, x: bool)
    requires IsExample(c, more)
    ensures Shows(c, x, 9, Fork(x))
  {
    hide Shows, Shown, At;
    TakesFirst(c, more, x);
    Sleeps(c, x, 8, Resolved(x), 0, 3);
    AllLive(x, Fork(x));
  }

  // --- The stale timer fires first ---

  const LATE_ZERO := Side([Got(1, FIRST), TimedOut(Some(1))], None, false, [], 5, Some(2), false)
  const LATE_ONE := Side([Done, TimedOut(Some(0))], None, false, [], 5, None, false)

  lemma ZeroFirst(c: Config, more: bool)
    requires IsExample(c, more)
    ensures Shows(c, false, 12, Board(LATE_ZERO, WATCHING, [], Some(0), {OTHER, LIVE}, 4))
  {
    hide Shows, At;
    WaitsAgain(c, more, false);
    assert First(Fork(false), STALE);
    Serves(c, false, 9, Fork(false), 0, STALE, 3);
    assert SERVED.h + [TimedOut(Some(1))] == LATE_ZERO.h;
    assert Fork(false).events - {STALE} == {OTHER, LIVE};
  }

  /** Without more calls both parties have timed out at the end. */
  lemma CalmEnd(c: Config)
    requires IsExample(c, false)
    ensures Shows(c, false, 17, Board(LATE_ZERO.(done := true), LATE_ONE.(done := true), [], None, {LIVE}, 4))
  {
    hide Shows, At;
    ZeroFirst(c, false);
    Ends(c, false, 12, Board(LATE_ZERO, WATCHING, [], Some(0), {OTHER, LIVE}, 4), 0);
    var b := Board(LATE_ZERO.(done := true), WATCHING, [], None, {OTHER, LIVE}, 4);
    Serves(c, false, 13, b, 1, OTHER, 5);
    assert WATCHING.h + [TimedOut(Some(0))] == LATE_ONE.h;
    assert {OTHER, LIVE} - {OTHER} == {LIVE};
    Ends(c, false, 16, Board(LATE_ZERO.(done := true), LATE_ONE, [], Some(1), {LIVE}, 4), 1);
  }

  const POSTED := ScheduledEvent(6, 4, LinkTo(1), Delivery(SECOND))
  const LAST := ScheduledEvent(6, 5, LinkTo(1), Timer)
  const SENT := LATE_ZERO.(h := [Got(1, FIRST), TimedOut(Some(1)), Done], done := true)

  /** With more calls party 0 sends, and then party 1 waits for the last time. */
  lemma SendsAndEnds(c: Config)
    requires IsExample(c, true)
    ensures Shows(c, false, 14, Board(SENT, WATCHING.(last := Some(6)), [], None, {OTHER, LIVE, POSTED}, 5))
  {
    hide Shows, At;
    ZeroFirst(c, true);
    Posts(c, false, 12, Board(LATE_ZERO, WATCHING, [], Some(0), {OTHER, LIVE}, 4), 0, SECOND);
    assert LATE_ZERO.h + [Done] == SENT.h;
    assert {OTHER, LIVE} + {POSTED} == {OTHER, LIVE, POSTED};
    var watching := WATCHING.(last := Some(6));
    Ends(c, false, 13, Board(SENT.(done := false), watching, [], Some(0), {OTHER, LIVE, POSTED}, 5), 0);
  }

  lemma SendsThenWaits(c: Config)
    requires IsExample(c, true)
    ensures Shows(c, false, 18, Board(SENT, LATE_ONE.(last := Some(6), timer := Some(LAST), parked := true), [], None,
      {LIVE, POSTED, LAST}, 6))
  {
    hide Shows, At;
    SendsAndEnds(c);
    var watching := WATCHING.(last := Some(6));
    Serves(c, false, 14, Board(SENT, watching, [], None, {OTHER, LIVE, POSTED}, 5), 1, OTHER, 5);
    assert WATCHING.h + [TimedOut(Some(0))] == LATE_ONE.h;
    assert {OTHER, LIVE, POSTED} - {OTHER} == {LIVE, POSTED};
    Sleeps(c, false, 17, Board(SENT, LATE_ONE.(last := Some(6)), [], Some(1), {LIVE, POSTED}, 5), 1, 1);
    assert {LIVE, POSTED} + {LAST} == {LIVE, POSTED, LAST};
  }

  /** The packet then comes before the deadline of party 1. */
  lemma BusyEnd(c: Config)
    requires IsExample(c, true)
    ensures exists b ::
      Shows(c, false, 23, b) && b.zero.done && b.one.done
      && b.one.h == [Done, TimedOut(Some(0)), Got(0, SECOND)]
  {
    hide Shows, At;
    SendsThenWaits(c);
    var one := LATE_ONE.(last := Some(6), timer := Some(LAST), parked := true);
    Strikes(c, false, 18, Board(SENT, one, [], None, {LIVE, POSTED, LAST}, 6), 1, 0, LIVE);
    assert {LIVE, POSTED, LAST} - {LIVE} == {POSTED, LAST};
    var b := Board(SENT, one, [], None, {POSTED, LAST}, 6);
    Serves(c, false, 19, b, 1, POSTED, 1);
    var e := With(b, 1, Served(one, 1, POSTED)).(cur := Some(1), events := b.events - {POSTED});
    Ends(c, false, 22, e, 1);
    assert Ended(e, 1).one.h == [Done, TimedOut(Some(0)), Got(0, SECOND)];
  }

  // --- Timers are cancelled ---

  lemma OneFirst(c: Config, more: bool)
    requires IsExample(c, more)
    ensures Shows(c, true, 12, Board(AGAIN, LATE_ONE, [], Some(1), {LIVE}, 4))
  {
    hide Shows, Shown, At;
    WaitsAgain(c, more, true);
    assert First(Fork(true), OTHER);
    Serves(c, true, 9, Fork(true), 1, OTHER, 5);
    assert WATCHING.h + [TimedOut(Some(0))] == LATE_ONE.h;
    assert Fork(true).events - {OTHER} == {LIVE};
    AllLive(true, Board(AGAIN, LATE_ONE, [], Some(1), {LIVE}, 4));
  }

  lemma CalmEndCancelling(c: Config)
    requires IsExample(c, false)
    ensures Shows(c, true, 17, Board(LATE_ZERO.(done := true), LATE_ONE.(done := true), [], None, {}, 4))
  {
    hide Shows, Shown, At;
    OneFirst(c, false);
    Ends(c, true, 12, Board(AGAIN, LATE_ONE, [], Some(1), {LIVE}, 4), 1);
    var b := Board(AGAIN, LATE_ONE.(done := true), [], None, {LIVE}, 4);
    AllLive(true, b);
    Serves(c, true, 13, b, 0, LIVE, 3);
    assert SERVED.h + [TimedOut(Some(1))] == LATE_ZERO.h;
    assert {LIVE} - {LIVE} == {};
    AllLive(true, Board(LATE_ZERO, LATE_ONE.(done := true), [], Some(0), {}, 4));
    Ends(c, true, 16, Board(LATE_ZERO, LATE_ONE.(done := true), [], Some(0), {}, 4), 0);
    AllLive(true, Board(LATE_ZERO.(done := true), LATE_ONE.(done := true), [], None, {}, 4));
  }

  const SOONER := ScheduledEvent(6, 4, LinkTo(1), Timer)
  const LATER := ScheduledEvent(6, 5, LinkTo(1), Delivery(SECOND))

  /** Party 1 waits for the last time, and only then party 0 sends. */
  lemma WaitsThenSends(c: Config)
    requires IsExample(c, true)
    ensures Shows(c, true, 17, Board(SENT.(done := false),
      LATE_ONE.(last := Some(6), timer := Some(SOONER), parked := true), [], Some(0), {SOONER, LATER}, 6))
  {
    hide Shows, Shown, At;
    OneFirst(c, true);
    Sleeps(c, true, 12, Board(AGAIN, LATE_ONE, [], Some(1), {LIVE}, 4), 1, 1);
    assert {LIVE} + {SOONER} == {LIVE, SOONER};
    var one := LATE_ONE.(timer := Some(SOONER), parked := true);
    AllLive(true, Board(AGAIN, one, [], None, {LIVE, SOONER}, 5));
    Serves(c, true, 13, Board(AGAIN, one, [], None, {LIVE, SOONER}, 5), 0, LIVE, 3);
    assert SERVED.h + [TimedOut(Some(1))] == LATE_ZERO.h;
    assert {LIVE, SOONER} - {LIVE} == {SOONER};
    AllLive(true, Board(LATE_ZERO, one, [], Some(0), {SOONER}, 5));
    Posts(c, true, 16, Board(LATE_ZERO, one, [], Some(0), {SOONER}, 5), 0, SECOND);
    assert LATE_ZERO.h + [Done] == SENT.h;
    assert {SOONER} + {LATER} == {SOONER, LATER};
    AllLive(true, Board(SENT.(done := false), one.(last := Some(6)), [], Some(0), {SOONER, LATER}, 6));
  }

  /** The deadline of party 1 then comes before the packet. */
  lemma BusyEndCancelling(c: Config)
    requires IsExample(c, true)
    ensures exists b ::
      Shows(c, true, 22, b) && b.zero.done && b.one.done
      && b.one.h == [Done, TimedOut(Some(0)), TimedOut(Some(0))]
  {
    hide Shows, Shown, At;
    WaitsThenSends(c);
    var one := LATE_ONE.(last := Some(6), timer := Some(SOONER), parked := true);
    Ends(c, true, 17, Board(SENT.(done := false), one, [], Some(0), {SOONER, LATER}, 6), 0);
    var b := Board(SENT, one, [], None, {SOONER, LATER}, 6);
    AllLive(true, b);
    Serves(c, true, 18, b, 1, SOONER, 1);
    var e := With(b, 1, Served(one, 1, SOONER)).(cur := Some(1), events := b.events - {SOONER});
    AllLive(true, e);
    Ends(c, true, 21, e, 1);
    AllLive(true, Ended(e, 1));
    assert Ended(e, 1).one.h == [Done, TimedOut(Some(0)), TimedOut(Some(0))];
  }

  // --- The fork ---

  /** As long as each party has at most one result the two protocols make the same calls. */
  lemma SameStep(c: Config, d: Config, k: Sim)
    requires IsExample(c, false) && IsExample(d, true) && Wf(c, k) && Wf(d, k)
    requires forall p :: p in k.hist ==> |HistOf(k, p)| <= 1
    ensures Step(c, k) == Step(d, k)
  {
    hide WfHeap, WfWakers, Advance, Settle, Arm, PollRecvTimeout, SendPacket;
  }

  lemma FewResults(c: Config, i: nat)
    requires IsExample(c, false) && i <= 9
    ensures ValidConfig(c) && forall p :: p in Run(c, i).hist ==> |HistOf(Run(c, i), p)| <= 1
  {
    hide Run, Shows, Wf, Step;
    WaitsAgain(c, false, false);
    ReadOff(c, false, 9, Fork(false));
    forall p | p in Run(c, i).hist ensures |HistOf(Run(c, i), p)| <= 1 {
      HistoryIsPrefix(c, i, 9, p);
    }
  }

  lemma SameInit(c: Config, d: Config)
    requires ValidConfig(c) && ValidConfig(d) && c.parties == d.parties
    ensures Run(c, 0) == Run(d, 0)
  {
  }

  lemma {:induction false} SameRun(c: Config, d: Config, i: nat)
    requires IsExample(c, false) && IsExample(d, true) && i <= 9
    ensures ValidConfig(c) && ValidConfig(d) && Run(c, i) == Run(d, i)
  {
    hide Run, Step, Wf, Program;
    AtFirst(c, false);
    AtFirst(d, false);
    if i == 0 {
      SameInit(c, d);
    } else {
      SameRun(c, d, i - 1);
      FewResults(c, i - 1);
      RunStep(c, i);
      RunStep(d, i);
      SameStep(c, d, Run(c, i - 1));
    }
  }

  /** Up to its ninth state nothing is overtaken in the run. */
  lemma NotBefore(c: Config, more: bool, i: nat)
    requires IsExample(c, more) && i < 9
    ensures ValidConfig(c) && !Overtakes(c, Run(c, i))
  {
    hide Shows, Run;
    Begin(c, more, false);
    BothWait(c, more, false);
    TakesFirst(c, more, false);
    if i == 6 || i == 7 {
    } else {
      NothingOvertaken(c, i,
        if i == 0 then Board(NEW, NEW, [0, 1], None, {}, 0)
        else if i == 1 then Board(NEW, NEW, [1], Some(0), {}, 0)
        else if i == 2 then Board(WAITING, NEW, [1], None, {STALE}, 1)
        else if i == 3 then Board(WAITING, NEW, [], Some(1), {STALE}, 1)
        else if i == 4 then Board(EXPECTING, NEW.(h := [Done]), [], Some(1), {STALE, EARLY}, 2)
        else if i == 5 then BOTH_WAIT else Resolved(false));
    }
  }

  /** The ninth state, the first in which a live event is overtaken: no packet is pending at all. */
  ghost predicate AtTheFork(c: Config) {
    ValidConfig(c) && OvertakesFirst(c, 9) &&
    var k := Run(c, 9);
    0 == NextEvent(k.sb).link.recipient && 0 in k.hist && 0 in k.wait && !PacketDue(c, k, 0)
  }

  lemma OvertakesAtNine(c: Config, more: bool)
    requires IsExample(c, more)
    ensures var k := Run(c, 9);
      ValidConfig(c) && Overtakes(c, k) && NextEvent(k.sb) == STALE && 0 in k.hist && 0 in k.wait && !PacketDue(c, k, 0)
  {
    hide Run, Step, WfWakers;
    WaitsAgain(c, more, false);
    var k := Run(c, 9);
    assert k.sb.events == {STALE, OTHER} + {LIVE};
    assert IsNext(k.sb, STALE);
    NextIsUnique(k.sb, STALE);
    assert OTHER in LiveEvents(k) && Before(OTHER, TimerOf(k, 0));
  }

  lemma Forks(c: Config, more: bool)
    requires IsExample(c, more)
    ensures AtTheFork(c)
  {
    hide Run, Overtakes, PacketDue, IsExample;
    OvertakesAtNine(c, more);
    forall i: nat | i < 9 ensures !Overtakes(c, Run(c, i)) { NotBefore(c, more, i); }
  }

  /** The two simulators end, with the same results. */
  ghost predicate EndAlike(c: Config) {
    exists a: nat, b: nat ::
      Halted(c, Run(c, a)) && Halted(c, RunCancelling(c, b)) && Run(c, a).hist == RunCancelling(c, b).hist
  }

  /** The two simulators end, with different results. */
  ghost predicate EndDifferently(c: Config) {
    exists a: nat, b: nat ::
      Halted(c, Run(c, a)) && Halted(c, RunCancelling(c, b)) && Run(c, a).hist != RunCancelling(c, b).hist
  }

  lemma CalmEndsAlike(c: Config)
    requires IsExample(c, false)
    ensures ValidConfig(c) && EndAlike(c)
  {
    hide Run, RunCancelling, Shows, Halted;
    CalmEnd(c);
    ReadOff(c, false, 17, Board(LATE_ZERO.(done := true), LATE_ONE.(done := true), [], None, {LIVE}, 4));
    CalmEndCancelling(c);
    ReadOff(c, true, 17, Board(LATE_ZERO.(done := true), LATE_ONE.(done := true), [], None, {}, 4));
    assert Halted(c, Run(c, 17)) && Halted(c, RunCancelling(c, 17));
  }

  lemma BusyEndsDifferently(c: Config)
    requires IsExample(c, true)
    ensures ValidConfig(c) && EndDifferently(c)
  {
    hide Run, RunCancelling, Shows, Halted;
    BusyEnd(c);
    var a :| Shows(c, false, 23, a) && a.zero.done && a.one.done
      && a.one.h == [Done, TimedOut(Some(0)), Got(0, SECOND)];
    ReadOff(c, false, 23, a);
    BusyEndCancelling(c);
    var b :| Shows(c, true, 22, b) && b.zero.done && b.one.done
      && b.one.h == [Done, TimedOut(Some(0)), TimedOut(Some(0))];
    ReadOff(c, true, 22, b);
    assert HistOf(Run(c, 23), 1) != HistOf(RunCancelling(c, 22), 1);
  }

  /**
   * Two protocols with the very same run up to the first state in which a stale timer gets ahead of a
   * live event, which concerns another party's receive: with the one cancelling timers changes nothing in
   * the end, with the other it does. So nothing that can be read off the run so far decides it.
   */
  lemma ProtocolsDecide(calm: Config, busy: Config)
    requires calm == Example(false) && busy == Example(true)
    ensures AtTheFork(calm) && AtTheFork(busy) && forall i: nat :: i <= 9 ==> Run(calm, i) == Run(busy, i)
    ensures EndAlike(calm) && EndDifferently(busy)
  {
    hide Run, RunCancelling, AtTheFork, EndAlike, EndDifferently;
    Forks(calm, false);
    Forks(busy, true);
    CalmEndsAlike(calm);
    BusyEndsDifferently(busy);
    forall i: nat | i <= 9 ensures Run(calm, i) == Run(busy, i) { SameRun(calm, busy, i); }
  }
}
