/** A run in which a packet arrives exactly at a deadline: the order of the party list decides it. */
module TieExample {
  import opened Wrappers
  import opened SimTypes
  import opened SwitchboardSpec
  import opened Kernel
  import opened TwoParties

  const PACKET := Packet([7], 1)

  /** Party 0 waits five instants for party 1. */
  function Program(p: PartyId, h: seq<Res>): Op {
    if h != [] then Finish else if p == 0 then RecvFromTimeout(1, 5) else Send(0, PACKET)
  }

  /** A packet takes five instants. */
  function Example(parties: seq<PartyId>): Config {
    Config(parties, Program, (l, size) => 5)
  }

  function TheTimer(seqNo: nat): ScheduledEvent { ScheduledEvent(5, seqNo, LinkTo(0), Timer) }

  function ThePacket(seqNo: nat): ScheduledEvent { ScheduledEvent(5, seqNo, LinkTo(0), Delivery(PACKET)) }

  /** Party 0 waits with the timer of number `timer`, and party 1 has sent the packet of number `packet`. */
  function AllScheduled(timer: nat, packet: nat): Board {
    Board(Side([], Some(TheTimer(timer)), true, [], 0, Some(5), false), NEW.(h := [Done], done := true),
      [], None, {TheTimer(timer), ThePacket(packet)}, 2)
  }

  lemma TimerScheduledFirst(c: Config)
    requires c == Example([0, 1])
    ensures Shows(c, false, 5, AllScheduled(0, 1))
  {
    hide Shows;
    AtFirst(c, false);
    Begins(c, false, 0, Board(NEW, NEW, [0, 1], None, {}, 0), 0);
    assert [0, 1][1..] == [1] && [1][1..] == [];
    Sleeps(c, false, 1, Board(NEW, NEW, [1], Some(0), {}, 0), 0, 5);
    var waiting := NEW.(timer := Some(TheTimer(0)), parked := true);
    assert {} + {TheTimer(0)} == {TheTimer(0)};
    Begins(c, false, 2, Board(waiting, NEW, [1], None, {TheTimer(0)}, 1), 1);
    Posts(c, false, 3, Board(waiting, NEW, [], Some(1), {TheTimer(0)}, 1), 1, PACKET);
    assert NEW.h + [Done] == [Done];
    assert {TheTimer(0)} + {ThePacket(1)} == {TheTimer(0), ThePacket(1)};
    Ends(c, false, 4, AllScheduled(0, 1).(cur := Some(1), one := NEW.(h := [Done])), 1);
  }

  lemma PacketScheduledFirst(c: Config)
    requires c == Example([1, 0])
    ensures Shows(c, false, 5, AllScheduled(1, 0))
  {
    hide Shows;
    AtFirst(c, false);
    Begins(c, false, 0, Board(NEW, NEW, [1, 0], None, {}, 0), 1);
    assert [1, 0][1..] == [0] && [0][1..] == [];
    Posts(c, false, 1, Board(NEW, NEW, [0], Some(1), {}, 0), 1, PACKET);
    assert NEW.h + [Done] == [Done];
    assert {} + {ThePacket(0)} == {ThePacket(0)};
    var expecting, sent := NEW.(last := Some(5)), NEW.(h := [Done]);
    Ends(c, false, 2, Board(expecting, sent, [0], Some(1), {ThePacket(0)}, 1), 1);
    Begins(c, false, 3, Board(expecting, sent.(done := true), [0], None, {ThePacket(0)}, 1), 0);
    Sleeps(c, false, 4, Board(expecting, sent.(done := true), [], Some(0), {ThePacket(0)}, 1), 0, 5);
    assert {ThePacket(0)} + {TheTimer(1)} == {TheTimer(1), ThePacket(0)};
  }

  /** The event of lower number decides, and the other one is still pending when party 0 has its result. */
  lemma LowerNumberWins(c: Config, timer: nat, packet: nat)
    requires (c == Example([0, 1]) || c == Example([1, 0])) && timer != packet
      && Shows(c, false, 5, AllScheduled(timer, packet))
    ensures 0 in Run(c, 8).hist && HistOf(Run(c, 8), 0)
      == [if timer < packet then TimedOut(Some(1)) else Got(1, PACKET)]
    ensures timer < packet ==> ThePacket(packet) in Run(c, 8).sb.events
  {
    hide Run, Shows;
    var b := AllScheduled(timer, packet);
    var e := if timer < packet then TheTimer(timer) else ThePacket(packet);
    Serves(c, false, 5, b, 0, e, 5);
    ReadOff(c, false, 8, With(b, 0, Served(b.zero, 0, e)).(cur := Some(0), events := b.events - {e}));
  }

  /**
   * The comment that a packet delivered exactly at the deadline wins does not hold in general. With
   * party 0 first in the list its timer is scheduled before the packet, and the receive times out
   * with the packet due at that very instant; with the list the other way round the packet wins.
   */
  lemma TieDependsOnPartyOrder()
    ensures ValidConfig(Example([0, 1])) && ValidConfig(Example([1, 0]))
    ensures HistOf(Run(Example([0, 1]), 8), 0) == [TimedOut(Some(1))]
    ensures exists e :: e in Run(Example([0, 1]), 8).sb.events && e.kind == Delivery(PACKET) && e.arrival == 5
    ensures HistOf(Run(Example([1, 0]), 8), 0) == [Got(1, PACKET)]
  {
    hide Run, Program, At;
    TimerScheduledFirst(Example([0, 1]));
    LowerNumberWins(Example([0, 1]), 0, 1);
    PacketScheduledFirst(Example([1, 0]));
    LowerNumberWins(Example([1, 0]), 1, 0);
  }
}
