/** Values exchanged between the parties, the switchboard and the executor of the simulator. */
module SimTypes {
  import opened Wrappers

  type PartyId = nat

  /** A virtual instant or a virtual duration. */
  type Time = nat

  /** A directed channel between two parties. */
  datatype Link = Link(sender: PartyId, recipient: PartyId)

  /** What a party hands to the network: some items and the number of bytes they occupy. */
  datatype Packet = Packet(items: seq<int>, size: nat)

  /** The lifecycle events that move no data. */
  datatype Mark = Start | Output | Stop | ProtocolBegin(id: nat) | ProtocolEnd(id: nat)

  /** One entry of a party's trace. */
  datatype TraceEvent =
    | SendData(timestamp: Time, link: Link, size: nat)
    | ReceiveData(timestamp: Time, link: Link, size: nat)
    | Marked(timestamp: Time, mark: Mark)

  datatype EventKind = Delivery(packet: Packet) | Timer

  /** A packet delivery or a receive deadline, placed on the virtual timeline. */
  datatype ScheduledEvent = ScheduledEvent(arrival: Time, seqNo: nat, link: Link, kind: EventKind)

  /** The heap order: earlier arrival first, ties broken by the sequence number. */
  predicate Before(e: ScheduledEvent, f: ScheduledEvent) {
    e.arrival < f.arrival || (e.arrival == f.arrival && e.seqNo < f.seqNo)
  }

  /** What one network call gave back to the party that made it. */
  datatype Res =
    | Done
    | Got(sender: PartyId, packet: Packet)
    | TimedOut(blame: Option<PartyId>)

  /** The next network call of a party. */
  datatype Op =
    | Send(to: PartyId, packet: Packet)
    | Record(mark: Mark)
    | RecvFrom(source: PartyId)
    | RecvAny
    | RecvFromTimeout(source: PartyId, timeout: Time)
    | RecvAnyTimeout(timeout: Time)
    | Finish

  /**
   * A simulation: the party list, the protocol of every party and the delay model.
   *
   * A protocol is a strategy: given the results of the network calls the party has made so far it
   * names the next call. Any deterministic protocol, with control flow that depends on the data
   * received, has this form.
   */
  datatype Config = Config(
    parties: seq<PartyId>,
    prog: (PartyId, seq<Res>) -> Op,
    delay: (Link, nat) -> Time)

  function Max(a: nat, b: nat): nat { if a < b then b else a }
}
