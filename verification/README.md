# Verification of a secure computation library: simulator kernel, DN07 multiplication, arithmetic

A Dafny model of a Rust library for multi-party computation, with proofs of what its code promises.
`dafny verify dfyconfig.toml` checks everything. Nothing here runs the library; the model follows its
source and the proofs are about the model.

The project has three parts that build on one another, and a small fourth one.

**The simulator kernel.** Parties are tasks over a switchboard with packet queues, parked wakers, an event
heap ordered by (arrival, sequence number), a virtual clock per party, and per-link FIFO clamping.
`SwitchboardSpec` gives the switchboard as a value, `Switchboard` the objects with the same fields and
methods as the program, each method proved against the value it leaves. `Kernel` turns the executor loop
into a deterministic small-step machine whose states `Run(cfg, n)` are exactly the reachable ones, and
`Executor` is the loop itself, proved to walk through them. On these rest `Causality`, `Links`, `Wakeups`,
`Termination`, `Histories`, `Traces`, `DelayIndependence`, `Deadlock`, `TimedReceive`, `ReceiveLife`,
`StaleTimers`, `StaleVerdict`, concrete runs (`TwoParties`, `TieExample`, `StaleExample`,
`ProtocolsDecide`), and, for whole protocols run over the network, `DealThenOpen`, `OpenedSecret`,
`Timetable`, `OpenRounds`, `OpensInStep` (collection from anyone) and `Scripts` (sends and named receives).

**The multiplication stack of Damgård and Nielsen (CRYPTO 2007)** over the integers modulo an arbitrary
prime: `Zp`, `Polynomials`, `Interpolation`, `Shamir`, `Matrices`, `Extraction`, `ExtractionOnto`,
`RandomSharing`, `KingOpening`, `Triples`, `BeaverMul`, and `DN07`, which puts all parties side by side;
`Circuits` does so for arithmetic circuits of any depth with given triples, at any degree below the number
of parties. `KingRounds`, `NetworkedMultiplication` and `NetworkedCircuit` join this to the kernel: the
whole multiplication, deals and openings included, and the evaluation of circuits, run over the simulated
network under any delays.

**The arithmetic underneath.** `Mersenne61` in machine integers with every range checked, `Naf` and
`Groups` for scalar multiplication, `Secp256k1` for the projective formulas (curve of section 2.4.1 of SEC
2), `Chord` for sums of different points, `ProjectiveEquality` for the equality of points, `Powers`,
`Feldman`, and `Residues`, a group as `Groups` and `Feldman` assume one.

**Bandwidth trees.** `BandwidthTree`: the trace parser, the folded output and the byte counters.

## Where the code and what is said about it differ

- *A packet delivered exactly at the deadline.* The comment on the timed receives says that delivery
  wins. It does if and only if the packet's sequence number is below those of all timers set for that
  instant on the awaited links (`TimedReceive.TieRule`); `TieExample.TieDependsOnPartyOrder` is a run that
  comes out either way, depending on nothing but the order of the party list.
- *Stale timers.* The comments say that a timer whose receive has resolved is harmless. It is, to the
  receive it wakes, unless it fires at that receive's deadline ahead of a packet the receive awaits, due
  ahead of the receive's own timer: exactly then the result is another one than without stale timers,
  whatever else is due (`StaleVerdict.OvertakingDecides`), and the ends of the run differ for good
  (`StaleVerdict.FirstOvertakingDecides`, `StaleVerdict.OvertakingPacketsHarms`).
  `StaleExample.StaleTimerCanDoHarm` is such a run. If a stale timer never gets ahead of any live event
  in this way, it is harmless to the whole run (`StaleTimers.StaleTimersAreHarmless`). If it gets ahead of
  live events of other parties only, the order in which the parties act at that instant changes; nothing in
  the run so far decides whether that shows in the end (`ProtocolsDecide.ProtocolsDecide`).
- *Openings in a row.* The collection loop of an opening takes shares from anyone, so it can take a faster
  peer's share of the next opening. It never does if and only if the delays keep the rounds apart
  (`OpensInStep.OpensStayInStep`); the triangle inequality on fixed link delays suffices
  (`Timetable.TriangleIsOnTime`), and one slow link breaks it (`OpensInStep.OpensCanGetMixedUp`).
- *`matrix * scalar`.* Both loops run to the number of rows. With fewer columns than rows the operator
  panics, with more it leaves columns unscaled, and it is `scalar_mult` exactly on square shapes
  (`Matrices.StarIsScaledWhenSquare`).
- *Division in the Mersenne field.* The operator inverts the left operand: `a / b` is b/a, and an error for
  a = 0. The law (a / b) b = a of the other fields holds exactly if a is not 0 and is b or -b
  (`Mersenne61.DivisionLaw`).
- *`random_non_zero` in the Mersenne field.* It accepts a draw equal to the modulus, which is zero
  (`Mersenne61.RandomNonZero`, `Mersenne61.NonZeroCanBeZero`).

## How to read the model

- A protocol is a strategy: it names the next network call of a party given the results of the earlier
  ones. Every deterministic protocol has this form; drawn randomness is part of the strategy. A packet
  sent is its items and its size.
- Party ids are distinct, and a party has one outstanding receive (`&mut self` in the network interface).
  A waker is the id of its task. Each poll of a task is split at its network calls, which no other task
  can observe, since tasks are polled one at a time.
- Functions of a state are defined for all arguments, so that statements need no side conditions: a party
  outside the run has received nothing (`HistOf`), and where no timer is pending `TimerOf` is a timer that
  is never set.
- The delay is an arbitrary function of link and size; time is a natural number.
- The heap is a set with the order (arrival, sequence number); sequence numbers are unique, so its top is.
- Logs of what was sent and received on every link are carried along for the statements about runs.
- Field elements are canonical integers modulo `p`; `Zp.Eq` is equality of elements. Polynomials are over
  the integers and are compared modulo `p`, so Horner's rule need not reduce in the specification.
- Drawn values are arbitrary inputs: every theorem holds for all of them.
- Share operators are those of a release build: the `debug_assert`s on degrees are not part of them.
- That the moduli are prime is a hypothesis (`Prime`). The group law of the curve is one as well
  (`Groups.Lawful`, `Feldman.Cyclic`); what the projective formulas satisfy of it is in `Secp256k1`, and
  that it can be met is `Residues.ACyclicGroup`.
- Indices and party ids do not reach the ends of the machine's word, except in `Mersenne61` and `Naf`,
  where the integer types are those of the program and overflow is checked.

## Model

| member | source | states |
|---|---|---|
| `SwitchboardSpec.SingleLinkPoll` | src/net/simulation/switchboard/recv.rs:95-179 | On a link without a parked waker the futures for a named sender behave as those for any sender do on a list of one, so one poll covers all four |
| `SwitchboardSpec.MinReady` | src/net/simulation/switchboard/mod.rs:274-292 | Receiving from anyone picks the lowest sender id with a queued packet, and nobody if and only if all queues are empty |
| `Switchboard.Switchboard.NextSeq` | src/net/simulation/switchboard/mod.rs:91-95 | Sequence numbers are handed out one after the other |
| `Switchboard.Switchboard.RecordEvent` | src/net/simulation/switchboard/mod.rs:97-114 | An event joins the end of its party's trace and changes nothing else |
| `Switchboard.Switchboard.Send` | src/net/simulation/switchboard/mod.rs:125-154 | The whole state after a send: trace entry at the sender's clock, arrival after the delay but never before an earlier packet of the link, next sequence number, delivery on the heap |
| `Switchboard.Switchboard.ScheduleTimer` | src/net/simulation/switchboard/mod.rs:160-168 | A timer at the deadline joins the heap under the next sequence number |
| `Switchboard.Switchboard.DeliverNext` | src/net/simulation/switchboard/mod.rs:176-203 | The least event by (arrival, sequence number) is taken; its recipient's clock moves up to it, its packet is queued, its waker is taken and named; with no event nothing changes and no progress is reported |
| `Switchboard.Switchboard.TryRecv` | src/net/simulation/switchboard/mod.rs:211-224 | The oldest packet of the link is returned and stamped with the recipient's clock; an empty queue changes nothing |
| `Switchboard.Switchboard.ReadySender` | src/net/simulation/switchboard/mod.rs:274-283 | The loop over the senders finds the lowest one with a queued packet |
| `Switchboard.Switchboard.Park` | src/net/simulation/switchboard/mod.rs:263-265 | The waker of one link is set, replacing an earlier one |
| `Switchboard.Switchboard.Unpark` | src/net/simulation/switchboard/mod.rs:285-288 | The wakers of exactly the awaited links are dropped |
| `Switchboard.Switchboard.ParkOnAll` | src/net/simulation/switchboard/mod.rs:331-335 | The waker is parked on exactly the awaited links, besides those parked before |
| `Switchboard.Recv.Poll` | src/net/simulation/switchboard/recv.rs:95-109 | The future for a named sender: result and whole new state |
| `Switchboard.RecvAny.Poll` | src/net/simulation/switchboard/recv.rs:56-69 | The future for any sender: result and whole new state |
| `Switchboard.RecvTimeout.Poll` | src/net/simulation/switchboard/recv.rs:151-179 | The first poll fixes the deadline and schedules the timer; later polls keep both; queue before deadline |
| `Switchboard.RecvAnyTimeout.Poll` | src/net/simulation/switchboard/recv.rs:225-260 | As before over all links; the timer is on the first sender's link, and there is none without senders |
| `Executor.Executor.Perform` | src/net/simulation/network.rs:57-110 | Each network call of a task is the switchboard step of the small-step machine |
| `Executor.Executor.RunSimulation` | src/net/simulation/executor.rs:72-139 | The loop ends, in the state the small-step machine reaches; it completes if and only if every task has finished, and otherwise panics in a deadlocked state |
| `Executor.Executor.Pop` | src/net/simulation/executor.rs:103-123 | Taking a ready task is a step of the machine; a finished task is skipped |
| `Executor.Executor.IdleTick` | src/net/simulation/executor.rs:124-137 | An idle tick delivers one event, or finds the run deadlocked and changes nothing |
| `Executor.RemainingCount` | src/net/simulation/executor.rs:102-117 | The count of remaining tasks is zero exactly when every task has finished |
| `Kernel.OneReceive` | src/net/simulation/switchboard/recv.rs:56-260 | In every state of a run each of the four receive futures acts as the one general poll |
| `Kernel.NextIsUnique` | src/net/simulation/switchboard/mod.rs:390-396 | Ties between arrivals are broken by sequence numbers, so the next event is unique |
| `Kernel.StepKeepsTasks` | src/net/simulation/executor.rs:72-139 | Every step keeps the tasks in order: no task is queued twice or after it finished, pending timers belong to timed receives, and every parked waker belongs to the recipient of its link, which is at a receive on it |
| `Causality.TimeAt` | src/net/simulation/switchboard/mod.rs:176-203 | In every reachable state no clock is ahead of the last event, no pending event behind it, active tasks are exactly at it, and traces are ordered |
| `Causality.NowIsMonotone` | src/net/simulation/switchboard/mod.rs:176-203 | Virtual time never runs backwards |
| `Causality.PopsInOrder` | src/net/simulation/switchboard/mod.rs:176-203 | In every run events leave the heap in the order of their arrivals |
| `Causality.TickIsCausal` | src/net/simulation/switchboard/mod.rs:179-203 | At an idle tick no clock exceeds a pending arrival; the recipient's clock becomes the event's arrival, no other clock changes, and only the recipient can become ready |
| `Causality.TracesAreOrdered` | src/net/simulation/switchboard/mod.rs:97-114 | Every trace of every run is ordered by time and ends no later than its party's clock |
| `Links.FifoConservation` | src/net/simulation/switchboard/mod.rs:125-224 | On every link at every step the packets sent are those received, then those queued, then those in flight, which are exactly the link's deliveries on the heap, in heap order |
| `Links.ReceptionAfterDelay` | src/net/simulation/switchboard/mod.rs:125-154 | The i-th packet received is the i-th sent, stamped no sooner than its send time plus the link delay |
| `Wakeups.NoLostWakeup` | src/net/simulation/switchboard/recv.rs:56-260 | At every idle tick an unfinished task is parked on precisely the links it awaits, their queues are empty, and a deadline has its timer on the heap |
| `Wakeups.PanicIsReal` | src/net/simulation/executor.rs:124-137 | When the executor panics every remaining task is at a receive without deadline and nothing is queued for it |
| `Deadlock.DeadlockIsExact` | src/net/simulation/executor.rs:124-137 | At an idle tick no pending event can unblock any task if and only if the executor goes on to panic without another call returning, for every protocol |
| `Termination.StepDecreases` | src/net/simulation/executor.rs:102-138 | Every step lowers, lexicographically, the calls left, the events pending and the tasks queued |
| `Termination.RunTerminates` | src/net/simulation/executor.rs:102-138 | If the parties make boundedly many calls, every run finishes or panics |
| `Histories.HistoriesAt` | src/net/simulation/switchboard/mod.rs:125-224 | In every run what a link carried is what its two ends sent and received, by their results |
| `Histories.AnsweredAt` | src/net/simulation/network.rs:57-110 | In every run each call has returned what a call of its kind may return |
| `Traces.TracesAt` | src/net/simulation/switchboard/mod.rs:97-224 | In every run the trace of a party is, in order, one entry for every packet it sent and every packet it received, with the link, the size and the time that the logs of the link have for that packet, and one for every mark it recorded; no other call leaves an entry |
| `Traces.MarksAreStamped` | src/net/simulation/switchboard/mod.rs:97-114 | A mark gets the clock of its party at the call that records it |
| `Traces.BytesAreSizes` | src/net/simulation/simulator.rs:98-124 | In every run the bytes that the trace of a party comes to, in the counters as in the tree, are the sizes of the packets it has sent to others |
| `DelayIndependence.WithinEnded` | src/net/simulation/switchboard/recv.rs:95-109 | Whatever a task has received at any time under one delay function it has received by the end under any other |
| `DelayIndependence.DelayIndependent` | src/net/simulation/switchboard/mod.rs:125-154 | For protocols of sends and named receives, results, packets per link and deadlock are the same under all delay functions and all orders of the party list |
| `DelayIndependence.OutcomeExists` | src/net/simulation/executor.rs:72-139 | With boundedly many calls both runs do end, with that common outcome |
| `TimedReceive.NeverPastDeadline` | src/net/simulation/switchboard/mod.rs:226-260 | No timed receive is ever polled past its deadline, and the deadline is the clock at its first poll plus the timeout |
| `TimedReceive.TimedPoll` | src/net/simulation/switchboard/mod.rs:226-327 | In every run a poll returns a packet if and only if one is queued, the oldest of the lowest ready sender, arrived by the deadline; it times out if and only if none is and the clock is at the deadline; a later packet stays pending |
| `TimedReceive.TickVerdict` | src/net/simulation/switchboard/mod.rs:176-203 | What one event does to a parked timed receive: other links leave it parked, a packet is returned at its arrival, its timer times it out at the deadline, an earlier stale timer parks it again |
| `TimedReceive.TieRule` | src/net/simulation/switchboard/mod.rs:226-233 | A packet arriving exactly at the deadline is returned if and only if its sequence number is below those of all timers, live or stale, set for that instant on the awaited links |
| `ReceiveLife.TimedReceiveLives` | src/net/simulation/switchboard/mod.rs:226-327 | From its first poll to its one result, in every run: the packet returned is the oldest of its link not received before, and has arrived by the deadline: at the first poll if it is there, and else at its arrival, with none awaited arriving sooner; a timeout comes exactly at the deadline, and no awaited packet ever arrives before it |
| `ReceiveLife.InTimeOrTimedOut` | src/net/simulation/switchboard/mod.rs:226-327 | A receive for which an awaited packet arrives before the deadline, at whatever time it is sent, returns a packet; one for which none arrives by the deadline times out at it |
| `ReceiveLife.TimedReceiveEnds` | src/net/simulation/switchboard/mod.rs:226-327 | With boundedly many calls every timed receive comes to its result |
| `TieExample.TieDependsOnPartyOrder` | src/net/simulation/switchboard/mod.rs:226-233 | The comment that delivery wins at the deadline fails: the order of the party list decides |
| `StaleTimers.StaleTimersAreHarmless` | src/net/simulation/switchboard/mod.rs:156-168 | Cancelling resolved receives' timers changes no result, no trace, no stamp and no outcome of any run in which no stale timer fires at a live deadline on its link ahead of another live event |
| `StaleTimers.CancellingMakesNoDifference` | src/net/simulation/switchboard/mod.rs:179-186 | Both simulators end on every protocol with boundedly many calls, alike |
| `StaleTimers.MatchingState` | src/net/simulation/switchboard/mod.rs:179-186 | From any point on the cancelling simulator reaches a state whose like occurs in the real run |
| `StaleTimers.StaleTimerResolves` | src/net/simulation/switchboard/mod.rs:179-186 | A stale timer makes a pending receive return if and only if it fires at the receive's own deadline |
| `StaleVerdict.OvertakingDecides` | src/net/simulation/switchboard/mod.rs:156-168 | There it makes the receive time out; without stale timers the receive returns the first awaited packet due ahead of its own timer, so that the result is the same if and only if there is no such packet, whatever else is pending and whatever the parties do |
| `StaleVerdict.ReturnsInTime` | src/net/simulation/switchboard/mod.rs:179-186 | And it does return, if the parties make boundedly many calls |
| `StaleVerdict.FirstOvertakingDecides` | src/net/simulation/switchboard/mod.rs:156-168 | For the first stale timer of a run that gets ahead of a live event: in the ends of both simulators the receive it wakes has a result, and the two results are the same if and only if no awaited packet was due ahead of the receive's own timer |
| `StaleVerdict.OvertakingPacketsHarms` | src/net/simulation/switchboard/mod.rs:156-168 | If one was, the two simulators end with different results |
| `StaleExample.StaleTimerCanDoHarm` | src/net/simulation/switchboard/mod.rs:156-159 | The unconditional claim fails: such a run, with a stale deadline, a live one and an arrival at one instant; the receive times out, and returns the packet if timers are cancelled |
| `ProtocolsDecide.ProtocolsDecide` | src/net/simulation/switchboard/mod.rs:156-168 | Two protocols with the same run up to the first stale timer that gets ahead of another party's live event: with one the simulators end alike, with the other they do not |
| `Scripts.ScriptIsRun` | src/net/simulation/switchboard/recv.rs:95-109 | A protocol laid down in phases of sends and named receives, with contents that depend on what was received, comes in every run to exactly the prescribed results, and finishes |
| `DealThenOpen.HonestRun` | src/protocol/share/deal.rs:100-124 | In every run of one deal and one opening each party receives only the dealt and the revealed shares, in their places |
| `DealThenOpen.CollectedOnce` | src/protocol/share/open.rs:51-75 | No party is collected from twice |
| `DealThenOpen.DealThenOpenCompletes` | src/protocol/share/open.rs:51-75 | When the run has ended, under any delays, every party has finished, holds exactly one share per party paired with its true owner, and no packet is left |
| `DealThenOpen.DealThenOpenEnds` | src/protocol/share/open.rs:51-75 | And every run does end |
| `OpenedSecret.DealtSecretIsOpened` | src/protocol/share/open.rs:15-25 | What any party collected, in whatever order, reconstructs to the dealer's secret |
| `OpensInStep.OpensStayInStep` | src/protocol/share/open.rs:51-75 | For openings in a row, whose shares and their sizes may depend on all that was opened before: every opening of the run takes shares of its own round only, if and only if by the timetable of the delays of the run's shares no share of a round arrives before a share of the round before |
| `OpensInStep.FixedSizesStayInStep` | src/protocol/share/open.rs:51-75 | If the sizes do not depend on what is opened, that timetable is known before the run |
| `OpensInStep.OpensEnd` | src/net/simulation/executor.rs:102-138 | Every run of openings ends |
| `OpensInStep.OpensComplete` | src/protocol/share/open.rs:15-25 | Then every party finishes with all shares of all rounds in order, as their owners computed them from the rounds before, and nothing is left queued |
| `OpensInStep.OpensCanGetMixedUp` | src/protocol/share/open.rs:15-25 | Without the condition the rounds mix: one slow link lets a party take a share of the second opening in the first |
| `Timetable.TriangleIsOnTime` | src/protocol/share/open.rs:51-75 | Fixed link delays that obey the triangle inequality meet the condition |
| `Zp.InvIsInverse` | src/math/field/mod.rs:38-47 | In the integers modulo a prime every nonzero element has the inverse that is computed for it |
| `Zp.NoZeroDivisors` | src/math/field/mod.rs:38-47 | A product modulo a prime is zero only if a factor is |
| `Zp.SumLaws` | src/math/ring.rs:9-38 | Addition modulo p is a commutative group |
| `Zp.ProductLaws` | src/math/ring.rs:9-38 | Multiplication modulo p is commutative and associative with unit 1 |
| `Zp.Distributes` | src/math/ring.rs:9-38 | Multiplication distributes over addition |
| `Polynomials.TooManyRoots` | src/math/poly.rs:166-193 | Over a prime field a polynomial with as many distinct roots as coefficients is zero everywhere |
| `Polynomials.AgreeEverywhere` | src/math/poly.rs:166-193 | Two polynomials that agree at as many distinct points as they have coefficients agree everywhere |
| `Interpolation.Polynomial.Random` | src/math/poly.rs:67-74 | A random polynomial of a degree has the drawn coefficients, degree + 1 of them |
| `Interpolation.Polynomial.New` | src/math/poly.rs:84-93 | Coefficients are taken as they are; an empty list is refused |
| `Interpolation.Polynomial.SetConstantCoeff` | src/math/poly.rs:76-80 | The value at zero becomes the given one and no other coefficient changes |
| `Interpolation.Polynomial.Evaluate` | src/math/poly.rs:49-56 | The Horner loop gives the value of the polynomial modulo p |
| `Interpolation.AllDifferent` | src/math/poly.rs:153-164 | The set-filling loop answers whether the elements are pairwise different |
| `Interpolation.ComputeLagrangeBasis` | src/math/poly.rs:125-150 | It fails exactly on repeated nodes; otherwise entry j is the value at x of the j-th basis polynomial |
| `Interpolation.BasisOne` | src/math/poly.rs:125-150 | The j-th basis polynomial is one at the j-th node |
| `Interpolation.BasisZero` | src/math/poly.rs:125-150 | And zero at all others |
| `Interpolation.InterpolatePolynomialAt` | src/math/poly.rs:173-193 | Empty input, a length mismatch and repeated nodes fail, in that order; otherwise the loop gives the interpolating polynomial's value |
| `Interpolation.InterpolantAt` | src/math/poly.rs:173-193 | The interpolating polynomial takes the given values at the nodes |
| `Interpolation.InterpolationIsExact` | src/math/poly.rs:173-193 | Interpolating the evaluations of a polynomial, at no fewer distinct nodes than coefficients, gives its value at any x |
| `Shamir.SharesFromSecret` | src/ss/shamir.rs:80-94 | The shares are the values of the sampled polynomial with its constant replaced by the secret |
| `Shamir.DealToParties` | src/ss/shamir.rs:268-284 | Dealing fails exactly if the degree is not below the number of parties; otherwise every party gets its value |
| `Shamir.SecretFromShares` | src/ss/shamir.rs:114-140 | Errors in their order: no shares, a length mismatch, mixed degrees, too few shares, repeated points; otherwise the interpolated value at zero |
| `Shamir.ReconstructionSucceeds` | src/ss/shamir.rs:114-140 | Whatever the shares, reconstruction succeeds if and only if there is one for each of some distinct points, they are all of one degree and there are more of them than that; as many shares as points but of mixed degrees are reported as such |
| `Shamir.ReconstructionIsExact` | src/ss/shamir.rs:114-140 | Shares of a polynomial reconstruct if and only if there are more than its degree at distinct points, and then to its constant |
| `Shamir.AnyEnoughShares` | src/ss/shamir.rs:114-140 | Any degree + 1 or more of the dealt shares, in any order, give back the secret |
| `Shamir.LinearShares` | src/ss/shamir.rs:145-188 | Adding, subtracting and negating shares does the same to the shared polynomials |
| `Shamir.ProductShares` | src/ss/shamir.rs:215-224 | Multiplying shares multiplies the polynomials and adds the degrees |
| `Shamir.ScaledShare` | src/ss/shamir.rs:202-213 | Scaling a share scales the shared polynomial |
| `Shamir.ShiftedShare` | src/ss/shamir.rs:161-200 | Adding or subtracting a constant shifts the shared value by it |
| `Shamir.SmallIdsStayApart` | src/ss/shamir.rs:251-253 | Distinct party ids below the modulus have distinct points |
| `Matrices.Matrix.FromVec` | src/math/matrix.rs:133-142 | It fails exactly when the shape is empty or does not fit the list |
| `Matrices.Matrix.Ones` | src/math/matrix.rs:213-225 | Every entry is one; an empty shape is refused |
| `Matrices.Matrix.Get` | src/math/matrix.rs:52-63 | The entry in row i and column j, or nothing outside the shape |
| `Matrices.Matrix.Set` | src/math/matrix.rs:65-74 | Exactly one entry changes; outside the shape none does and the error names the indices |
| `Matrices.Matrix.Vandermonde` | src/math/matrix.rs:251-266 | Entry (i, j) is the j-th power of the i-th value, for every shape |
| `Matrices.Matrix.Transpose` | src/math/matrix.rs:110-126 | Rows become columns |
| `Matrices.TransposeInvolutive` | src/math/matrix.rs:110-126 | Transposing twice gives the matrix back |
| `Matrices.Matrix.Times` | src/math/matrix.rs:347-377 | Every entry is the sum over the inner index; incompatible shapes are refused |
| `Matrices.ProductActs` | src/math/matrix.rs:347-377 | A product acts on every vector as its second factor followed by the first |
| `Matrices.ProductTransposed` | src/math/matrix.rs:347-377 | Its transpose is the product of the transposes in the other order |
| `Matrices.Matrix.TimesVector` | src/math/matrix.rs:379-399 | Every entry is the sum of products of a row with the vector |
| `Matrices.Matrix.MulShares` | src/math/matrix.rs:276-293 | Row by row the combination of the shares, by a loop that starts from the first term |
| `Matrices.Matrix.ScalarMutInPlace` | src/math/matrix.rs:150-154 | Every entry is scaled in place |
| `Matrices.Matrix.ScalarMult` | src/math/matrix.rs:157-167 | A new matrix with every entry scaled |
| `Matrices.ScaledActs` | src/math/matrix.rs:157-167 | A scaled matrix gives the scaled result on every vector |
| `Matrices.Matrix.MulScalar` | src/math/matrix.rs:434-451 | The operator as it is: it panics when there are fewer columns than rows, and otherwise scales the first columns, as many as there are rows |
| `Matrices.StarIsScaledWhenSquare` | src/math/matrix.rs:434-451 | Where it returns, the operator gives what `scalar_mult` gives, for all entries, if and only if the shape is square |
| `Extraction.ExtractionMatrix` | src/protocol/passive_shamir/mod.rs:56-68 | Entry (k, i) is the k-th power of the i-th party's point, with one row per output |
| `Extraction.RowShareOf` | src/math/matrix.rs:276-293 | `mul_shares` commutes with sharing: a combination of shares is a share, of the same degree, of the combination |
| `Extraction.ExtractionIsInjective` | src/protocol/passive_shamir/mod.rs:41-54 | With distinct points any choice of `outputs` columns is injective: the other secrets fixed, the outputs determine the chosen ones |
| `ExtractionOnto.ExtractionIsOnto` | src/protocol/passive_shamir/mod.rs:41-54 | And onto: for every output vector there are secrets of the chosen dealers that give it, the others' unchanged |
| `RandomSharing.CollectInOrder` | src/protocol/passive_shamir/rand_share.rs:74-84 | The receive loop puts every dealer's share in the dealer's place, the own one included |
| `RandomSharing.PassiveRandShr.New` | src/protocol/passive_shamir/rand_share.rs:40-53 | It refuses exactly t >= n; the party list is sorted and the matrix is the extraction matrix of it |
| `RandomSharing.PassiveRandShr.Run` | src/protocol/passive_shamir/rand_share.rs:62-97 | The outputs are the extraction matrix applied to the shares in party order |
| `RandomSharing.PassiveRandDoubleShr.New` | src/protocol/passive_shamir/double_rand_share.rs:42-55 | It refuses exactly 2t >= n |
| `RandomSharing.PassiveRandDoubleShr.Run` | src/protocol/passive_shamir/double_rand_share.rs:64-125 | Both families go through the one matrix, and the degrees of every pair match |
| `RandomSharing.OutputsAreShared` | src/protocol/passive_shamir/rand_share.rs:62-97 | The parties' j-th outputs are shares of one polynomial of the dealt degree, whose constant is the j-th combination of the dealers' secrets |
| `RandomSharing.DoubleOutputsAgree` | src/protocol/passive_shamir/double_rand_share.rs:64-125 | The two halves of a double sharing share the same value |
| `Sequences.SortAgrees` | src/protocol/passive_shamir/rand_share.rs:40-53 | However a party lists the others, sorting gives everybody the same list |
| `KingOpening.BatchedPassiveOpenToKing.CollectShares` | src/protocol/passive_shamir/open_king.rs:126-140 | The king takes as many shares from every packet as it has itself; a short packet is an error |
| `KingOpening.BatchedPassiveOpenToKing.Secrets` | src/protocol/passive_shamir/open_king.rs:141-153 | Secret i is reconstructed from everybody's i-th share; the first failure ends it |
| `KingOpening.BatchedPassiveOpenToKing.RunKing` | src/protocol/passive_shamir/open_king.rs:123-161 | The king's whole run: its result, and the same values to exactly the other parties, or nothing on an error |
| `KingOpening.BatchedPassiveOpenToKing.RunOther` | src/protocol/passive_shamir/open_king.rs:162-175 | Another party sends its shares and reads as many values from the king's packet |
| `KingOpening.KingOpens` | src/protocol/passive_shamir/open_king.rs:123-161 | Enough parties at distinct points: the opening gives exactly the shared values, all of them |
| `Triples.PassiveTriple.New` | src/protocol/passive_shamir/triple.rs:82-113 | Exactly the inputs with equal positive counts, a king among the parties and fitting degrees are accepted |
| `Triples.AcceptedInput` | src/protocol/passive_shamir/triple.rs:82-113 | Inputs that are accepted have a king among the parties, masked products of a degree that the parties can open, and triples of one degree as results |
| `Triples.RefusedMask` | src/protocol/passive_shamir/triple.rs:82-113 | A degree refused because its double reaches the number of parties is one at which the masked products cannot be opened |
| `Triples.PassiveTriple.Masked` | src/protocol/passive_shamir/triple.rs:123-134 | What is opened: every product plus the mask of degree 2t |
| `Triples.PassiveTriple.Finish` | src/protocol/passive_shamir/triple.rs:137-153 | Every triple keeps its factors and gets the opened value less the mask of degree t |
| `Triples.MaskedShare` | src/protocol/passive_shamir/triple.rs:123-134 | A masked product is a share of degree 2t of the product plus the mask |
| `Triples.UnmaskedShare` | src/protocol/passive_shamir/triple.rs:137-153 | Its unmasking is a share, of degree t again, of the product |
| `BeaverMul.PassiveShamirMul.New` | src/protocol/passive_shamir/mul.rs:62-98 | Exactly the inputs with equal positive counts, a king among the parties and one degree throughout, small enough, are accepted |
| `BeaverMul.AcceptedInput` | src/protocol/passive_shamir/mul.rs:62-98 | Inputs that are accepted have a king among the parties, masked operands of a degree that the parties can open, and products of the degree of the operands |
| `BeaverMul.RefusedOperand` | src/protocol/passive_shamir/mul.rs:62-98 | A degree refused because it reaches the number of parties is one at which the masked operands cannot be opened |
| `BeaverMul.PassiveShamirMul.Masked` | src/protocol/passive_shamir/mul.rs:108-117 | What is opened, two by two: x - a and y - b |
| `BeaverMul.PassiveShamirMul.Finish` | src/protocol/passive_shamir/mul.rs:119-131 | Every product is c + d b + e a + d e of its own triple and opened pair |
| `BeaverMul.ProductShare` | src/protocol/passive_shamir/mul.rs:119-131 | The local computation leaves all parties' products on one polynomial of the triples' degree |
| `BeaverMul.ProductValue` | src/protocol/passive_shamir/mul.rs:119-131 | Whose constant is x y |
| `DN07.HonestDeals` | src/ss/shamir.rs:80-94 | Whatever the dealers draw, their shares are a family of deals such as the session asks for, and the constants are their secrets |
| `DN07.TriplesAreCorrect` | src/protocol/passive_shamir/triple.rs:123-154 | The generated triples are three sharings of degree t, the third of the product of the other two |
| `DN07.MultiplicationIsCorrect` | src/protocol/passive_shamir/mul.rs:108-132 | For every t with 2t < n, distinct points, any drawn values and operands of degree t both openings succeed and the parties' outputs are shares of degree t of x_l y_l, fit for the next multiplication |
| `DN07.InputsAreAccepted` | src/protocol/passive_shamir/mul.rs:62-98 | The constructors' checks let these inputs through |
| `KingRounds.ReadsBack` | src/protocol/passive_shamir/open_king.rs:162-175 | Packets carry shares unchanged |
| `KingRounds.KingMovesWith` | src/protocol/passive_shamir/open_king.rs:123-175 | Who tells and asks whom: only the king answers anybody, so that with a king who is not among the parties everyone waits for a packet that nobody sends |
| `KingRounds.AllOpen` | src/protocol/passive_shamir/open_king.rs:123-175 | Whatever the shares and the values: once the calls of an opening have returned what they have to, the king holds everybody's shares in party order, and all parties have the values that it reconstructs |
| `NetworkedMultiplication.PhaseCalls` | src/protocol/passive_shamir/mul.rs:108-132 | The calls of a party by their number: which family of deals or which opening they belong to |
| `NetworkedMultiplication.ReceivedDeals` | src/protocol/passive_shamir/double_rand_share.rs:64-102 | After a family of deals a party holds, in party order, what each dealer dealt it |
| `NetworkedMultiplication.KingOpensValues` | src/protocol/passive_shamir/open_king.rs:123-161 | In the run the king holds everybody's masked shares and opens the right values |
| `NetworkedMultiplication.MultiplicationFollows` | src/protocol/passive_shamir/mul.rs:108-132 | As long as a party gets what the protocol prescribes, it calls what the protocol prescribes, contents included |
| `NetworkedMultiplication.MultiplicationOverTheNetwork` | src/protocol/passive_shamir/mul.rs:108-132 | Random, double and triple generation and multiplication as one protocol over the network: in every ended run, under any delays, all parties have finished and their outputs are shares of degree t, on one polynomial each, of the products |
| `NetworkedMultiplication.EverySessionRuns` | src/net/simulation/simulator.rs:191-242 | For every session, party list and delay function there is a simulation that runs it |
| `NetworkedMultiplication.MultiplicationEnds` | src/net/simulation/executor.rs:72-139 | And every run of it ends |
| `Circuits.WiresShared` | src/protocol/passive_shamir/mul.rs:12-36 | Local operations and products with triples keep every party's share of every wire on one polynomial of degree t |
| `Circuits.LayerOpens` | src/protocol/passive_shamir/mul.rs:108-132 | For every degree below the number of parties the opening of every layer succeeds, with the masked operands |
| `Circuits.WiresAreRight` | src/protocol/passive_shamir/mul.rs:12-36 | Every wire of every layer carries the value that the circuit gives it |
| `Circuits.LayersAreAccepted` | src/protocol/passive_shamir/mul.rs:62-98 | The constructor's checks let the operands and triples of every layer through |
| `Circuits.GeneratedTriplesFit` | src/protocol/passive_shamir/triple.rs:123-150 | Generated triples are of the kind that circuits use up |
| `NetworkedCircuit.EvaluationFollows` | src/protocol/passive_shamir/mul.rs:108-132 | As long as a party gets what the layers prescribe, it calls what they prescribe |
| `NetworkedCircuit.CircuitOverTheNetwork` | src/protocol/passive_shamir/mul.rs:12-36 | Layer after layer in one run over the network, one round each: for every circuit and every degree below the number of parties, in every ended run, under any delays, all parties have finished and hold shares of degree t, on one polynomial for each wire, of the values of all wires |
| `NetworkedCircuit.EveryCircuitRuns` | src/net/simulation/simulator.rs:191-242 | For every circuit, party list and delay function there is a simulation that evaluates it |
| `NetworkedCircuit.CircuitEnds` | src/net/simulation/executor.rs:72-139 | And every run of it ends |
| `Mersenne61.From` | src/math/field/mersenne61.rs:20-28 | Any 64-bit word is reduced to the canonical element, by subtraction |
| `Mersenne61.Add` | src/math/field/mersenne61.rs:63-70 | Addition modulo 2^61 - 1 within 64 bits |
| `Mersenne61.Sub` | src/math/field/mersenne61.rs:72-82 | Subtraction modulo 2^61 - 1 without underflow |
| `Mersenne61.Negate` | src/math/field/mersenne61.rs:36-42 | The canonical negative |
| `Mersenne61.Mul` | src/math/field/mersenne61.rs:92-108 | Shift-or-mask reduction of the 128-bit product gives the true product modulo 2^61 - 1 |
| `Mersenne61.SplitProduct` | src/math/field/mersenne61.rs:92-108 | The bits that the OR mixes into the high half are there already, and the mask keeps the low half |
| `Mersenne61.Assign` | src/math/field/mersenne61.rs:151-157 | The exchange step stays within 64 signed bits |
| `Mersenne61.EuclidStep` | src/math/field/mersenne61.rs:121-142 | What the extended Euclidean loop keeps: coefficients express the remainders, and no product or difference exceeds the modulus in absolute value |
| `Mersenne61.Inverse` | src/math/field/mersenne61.rs:121-142 | The loop ends for every canonical element; zero is an error, and for every other the result times the element is one |
| `Mersenne61.Div` | src/math/field/mersenne61.rs:110-116 | The operator returns b / a, and an error for a = 0 |
| `Mersenne61.DivisionLaw` | src/math/field/mersenne61.rs:110-116 | (a / b) b = a holds if and only if a is not zero and is b or -b |
| `Mersenne61.DivisionCanBeWrong` | src/math/field/mersenne61.rs:110-116 | One divided by two comes out as two, which breaks the law |
| `Mersenne61.Random` | src/math/field/mersenne61.rs:44-51 | The first draw not above the modulus, reduced |
| `Mersenne61.RandomNonZero` | src/math/field/mersenne61.rs:53-60 | The first nonzero draw not above the modulus, reduced; it is zero if and only if that draw is the modulus |
| `Mersenne61.NonZeroCanBeZero` | src/math/field/mersenne61.rs:53-60 | A generator for which `random_non_zero` returns zero |
| `Naf.NafEncoding.CreateNeg` | src/math/field/naf.rs:26-29 | One digit becomes minus one, in place |
| `Naf.NafEncoding.CreatePos` | src/math/field/naf.rs:31-34 | One digit becomes one, in place |
| `Naf.NafEncoding.CreateZero` | src/math/field/naf.rs:36-39 | One digit becomes zero, in place |
| `Naf.ToNaf` | src/math/field/secp256k1_scalar.rs:16-37 | For every scalar below the order: 257 digits suffice, nothing overflows, the signed digits sum to the scalar and no two neighbours are nonzero |
| `Naf.RecodeStep` | src/math/field/secp256k1_scalar.rs:16-37 | One turn of the recoding loop keeps digits plus remaining value equal to the scalar, and the digits apart |
| `Groups.TimesSum` | src/math/ec/mod.rs:23-40 | Multiples add up: (m + n) x = m x + n x, for all integers |
| `Groups.TimesProduct` | src/math/ec/mod.rs:23-40 | And multiply: m (n x) = (m n) x |
| `Groups.ScalarMul` | src/math/ec/secp256k1.rs:269-285 | Given the group law, double-and-add over the non-adjacent form gives the scalar-fold sum of the point |
| `Residues.ACyclicGroup` | src/math/ec/mod.rs:23-40 | The integers modulo the order of the curve meet all that is assumed of its group |
| `Secp256k1.Dbl` | src/math/ec/secp256k1.rs:148-176 | The doubling steps compute the doubling polynomials in the coordinates |
| `Secp256k1.Sum` | src/math/ec/secp256k1.rs:203-259 | The addition steps compute the complete addition polynomials |
| `Secp256k1.Negate` | src/math/ec/secp256k1.rs:261-267 | The negative has the opposite y, or is the point at infinity if y is zero; added to the point it leaves no x and no z |
| `Secp256k1.DoublingIsSelfAddition` | src/math/ec/secp256k1.rs:148-259 | `dbl(P)` equals `add(P, P)` coordinate for coordinate on every point of the curve |
| `Secp256k1.DoublingExactly` | src/math/ec/secp256k1.rs:148-259 | For every point and every prime p: the coordinates are equal if and only if the point is on the curve or both y and z are zero (or, in characteristic 2, 3 and 7, the coefficient they come with is) |
| `Secp256k1.SumCommutes` | src/math/ec/secp256k1.rs:203-259 | Addition is commutative coordinate for coordinate |
| `Secp256k1.InfinityIsNeutral` | src/math/ec/secp256k1.rs:203-259 | Adding the point at infinity multiplies all coordinates by y |
| `Chord.ChordLine` | src/math/ec/secp256k1.rs:203-259 | For all coordinates: the sum, reflected, lies on the line through the points, up to what they miss the curve by |
| `Chord.ChordLaw` | src/math/ec/secp256k1.rs:203-259 | For any two points of the curve the sum is the one of the law of the chord, both coordinates, divisions multiplied out |
| `ProjectiveEquality.SameIsProportional` | src/math/ec/secp256k1.rs:292-297 | Two points of the curve are equal, as the program compares them, if and only if all three coordinates are proportional |
| `ProjectiveEquality.SumIsHomogeneous` | src/math/ec/secp256k1.rs:203-259 | Scaling the coordinates of an operand scales those of the sum by the square |
| `ProjectiveEquality.SumRespectsEquality` | src/math/ec/secp256k1.rs:203-259 | Sums of equal points are equal, whatever coordinates they are given by |
| `ProjectiveEquality.PlusInfinityIsSame` | src/math/ec/secp256k1.rs:203-259 | Adding the point at infinity leaves a point equal to itself |
| `Powers.Pow` | src/math/ring.rs:50-75 | Square and multiply gives repeated multiplication, for every 64-bit exponent, zero included |
| `Feldman.IsValid` | src/ss/feldman.rs:55-71 | The loop decides verification: commitments on the curve, their number fits the degree, and the combination equals the share times the generator |
| `Feldman.VerifiesExactly` | src/ss/feldman.rs:55-71 | A share verifies against commitments to a polynomial if and only if it has the polynomial's degree and is its value at the owner |
| `Feldman.SomethingCommitted` | src/ss/feldman.rs:55-71 | Any commitments on the curve commit to some polynomial |
| `Feldman.VerifiesOnlyShares` | src/ss/feldman.rs:55-71 | Whatever it comes with, a share verifies if and only if its commitments commit to a polynomial of which it is a share at its owner; so none with a commitment off the curve does |
| `Feldman.SharesFromSecret` | src/ss/feldman.rs:111-127 | Honestly dealt shares carry commitments to the dealt polynomial and always verify |
| `Feldman.SecretFromShares` | src/ss/feldman.rs:130-154 | A length mismatch, or the first share that does not verify, is reported; otherwise the Shamir reconstruction |
| `Feldman.VerifiedSharesReconstruct` | src/ss/feldman.rs:130-154 | Enough verified shares with equal commitments and distinct owners give the committed secret |
| `BandwidthTree.Parse` | src/net/simulation/simulator.rs:98-124 | The cursor-advancing parser computes the recursive reading of the trace and leaves what follows its end |
| `BandwidthTree.ConsumesAll` | src/net/simulation/simulator.rs:98-124 | Parsing consumes the whole trace if and only if no proper prefix ends more protocols than it begins |
| `BandwidthTree.ChargedToInnermost` | src/net/simulation/simulator.rs:95-124 | For every set of paths the folded lines with these paths add up to the bytes sent while they were the open protocols |
| `BandwidthTree.Folder.Fold` | src/net/simulation/simulator.rs:148-171 | The walk appends one line per node that sent bytes, in pre-order, and restores the path |
| `BandwidthTree.MetricHook.Run` | src/net/simulation/hook.rs:113-128 | A send to another party adds its size to the total and to its sender's; nothing else does |
| `BandwidthTree.MetricHook.RunAll` | src/net/simulation/hook.rs:113-128 | Over a party's trace the counters grow by the bytes it sent over the wire |
| `BandwidthTree.TotalsCoincide` | src/net/simulation/simulator.rs:98-171 | The tree's total, the sum of the folded lines and the bytes the party sent coincide |
| `BandwidthTree.SelfSendsLeaveTree` | src/net/simulation/simulator.rs:98-124 | The tree of a trace is that of the trace without the sends of its party to itself |
| `BandwidthTree.SelfSendsLeaveCounters` | src/net/simulation/hook.rs:113-128 | And so are the bytes counted |
| `BandwidthTree.OnlySelfSends` | src/net/simulation/simulator.rs:98-124 | A trace of such sends only gives an empty tree and counts nothing |
| `BandwidthTree.PrintedTreeParses` | src/net/simulation/simulator.rs:98-124 | The trace that a tree of calls leaves parses to that tree |

## Left out

- The TLS and TCP backend, channels, certificates and configuration files: I/O over libraries that are not part of this model.
- The delay formulas in floating point: the delay is an arbitrary function of link and size.
- Serialization, packet labels and packet composition: a packet is its items and its size, and carries values unchanged.
- Trace marks inside the modelled protocols: they move no data and no clock, so the strategies leave them out.
- Generic hook dispatch, trace display and the plotting of outcomes.
- `PassiveOpenToParty` and the single king opening: the first is the collection loop of `PassiveOpenShr` at one party, the second a batch of one.
- Additive sharing and the element-wise vector operators: their laws are those of the field, entry by entry.
- Matrix identity, zero, random, addition and subtraction.
- Affine coordinates and the on-curve check of points, which accepts every point with z = 0.
- Associativity and closure of the curve's addition formulas: a hypothesis of `Groups` and `Feldman`.
- Secrecy, uniformity and every other claim about probabilities.
- StaleTimers.StaleTimersAreHarmless: the condition is sufficient for the run as a whole. For the receive that is woken the exact one is in `StaleVerdict`; between the two, where only other parties' live events are overtaken, none on the run so far exists (`ProtocolsDecide.ProtocolsDecide`).
- DealThenOpen.DealThenOpenCompletes: a protocol that fails to read a packet ends there; the runs considered have honest parties, so that branch is never taken.
- Mersenne61.Random: it ends only if the generator ever draws a value not above the modulus, which is a parameter here.
- Interpolation.Polynomial.Random: the drawn coefficients are inputs.
- Secp256k1.Negate: for a point with y = 0, of which the curve has none, the sum with the point at infinity is not a point; that no such point exists is not proved.
