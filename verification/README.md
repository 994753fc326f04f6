# Verification of the keyboard radio module

A Dafny 4.11 model of the protocol logic of the OpenController keyboard radio module (`firmware/src`), with proofs
about whole runs of it. `dafny verify dfyconfig.toml` checks everything. The build modelled is the default one
(resting policy, pairing duty cycle, link-lock servo fix, WFE idle and deep sleep on; bench probes off) with host
wake enabled, as on the MK65MX profile.

The module sits between a keyboard MCU on a UART and a 2.4 GHz dongle. Its logic is a set of state machines fed by
interrupts, timers, a lossy radio and clocks that wrap. Each one appears here twice: as functions on a value that
holds its state, and as a class with the C code's own fields, updated in place and proved to follow those functions.
Properties of whole runs are lemmas about sequences of events, in any order the interrupts and timers allow.

| files | what they model |
|---|---|
| `Words` | 32-bit ticks, the RTC32K modulus |
| `RtcClock` | the monotonic clock over stale reads of a wrapping counter |
| `HostWake`, `HostWakeHistory`, `HostWakeWire`, `HostWakeAck`, `HostWakeDrain` | the acknowledged link to a sleeping host: queue, LED slot, retries, quarantine, and the wire by history |
| `FrameParser`, `FrameParserProofs`, `FrameResync` | the resynchronising UART frame parser, and what an invalid frame costs |
| `RxRing`, `RxRingRuns` | the receive ring between the UART interrupt and the poll loop |
| `RxFrames` | the ring and the parser together, from the line to the frames |
| `ReportRing`, `ReportRingRuns` | the HID report ring between the main loop and the RX interrupt |
| `ReportLink`, `ReportControl`, `ReportDelivery` | the uplink: one control bit as the only acknowledgement, over a lossy radio |
| `HopClock`, `HopTracking` | the elapsed-time channel hop and its one-tick phase servo |
| `LedRelay`, `LedHost` | the host's LED byte from RX interrupt to handler to host wake, the resync after a loss, and the host that answers |
| `LinkMachine`, `RfTask` | the link: idle, pairing, connected, resting, its TMOS tasks and its radio |
| `LinkDelivery` | the link and the uplink as one run: what has been delivered when the link rests |
| `LinkHop` | RF_ConnectedTick whole, the link's part and the hop's |
| `LinkSafety`, `LinkCatch`, `LinkRadio`, `LinkReports`, `LinkHeldKey`, `LinkRest`, `LinkStall` | what the link keeps in every run, and two runs that show where it stops |
| `LinkTimers`, `LinkStatus`, `LinkProbes`, `LinkDuties`, `LinkQueue`, `LinkSelect` | the link by its history: timers, status and bond, probes, responses and receiver, reports kept, selection |
| `SleepProtocol`, `PowerSleep`, `PowerSleepRuns` | the UART sleep protocol, Power_Service and the idle callback that sleeps |

## What the code does not keep

Several properties that the code or its comments suggest do not hold as stated. Each has a concrete counterexample
and the exact condition, or the strongest statement that is true, beside it.

- **Rest and a held key.** The comment at `firmware/src/rf_task.c:1327-1332` says the link is kept while the newest
  report holds anything. `hid_key_held()` also asks that the newest report still describe the host, which a teardown
  denies: a key held across a disconnect does not keep the reconnected link up (`LinkHeldKey.RestsUnderAHeldKey`).
  `LinkReports.RestsExactlyWhenReleased` is the exact condition.
- **Noise behind a false header.** A header byte that begins no valid frame costs nothing when valid frames follow it
  back to back (`FrameResync.FalseHeaderCostsItself`). A frame that stands behind noise behind another frame is lost
  if and only if it begins inside the false frame: the shift past the dispatched frame skips no noise but empties the
  buffer (`FrameResync.NoiseBehindAFalseHeader`).
- **Hardware overruns.** One byte from beyond a gap can be fed when the overrun strikes a parser that holds a byte,
  between the latch test and the emptiness test of an empty ring (`RxRingRuns.LateOverrunFeedsPastTheGap`,
  `RxRingRuns.LateOverrunReached`). At any other moment, and for every byte dropped on a full ring, the reset comes
  first; and no second byte follows (`RxRingRuns.AtMostOneByteFedPastAGap`).
- **One response per poll.** What the control bit says is a parity: a caught poll retires the head in flight if and
  only if the dongle has heard an odd number of responses since the poll before, in every run
  (`ReportDelivery.RetiresByParity`). If the main loop gives up on a late TX_FINISH and serves a stale response event
  after the next poll, two responses go out for one poll and a report can be retired unheard
  (`ReportDelivery.LateFinishLosesAReport`). One response per poll is the exact limit
  (`ReportDelivery.OneResponseExact`).
- **Repeats after a discard.** A report that repeats the newest queued state is swallowed straight after a discard
  unless a teardown came between (`ReportRingRuns.SwallowedAfterDiscard`).
- **The quarantine's width.** `2u * ack_timeout_ticks` wraps for timeouts of 2^31 ticks and more, and an ACK can then
  be credited to the wrong frame, whatever the guard and the attempts (`HostWakeAck.WrappedTimeoutMisattributes`);
  below that it never is (`HostWakeAck.AttributionExact`).
- **The drain budget.** It holds, whatever ACKs come, from every state but one kind, which takes a tick more: no
  guard, a single attempt, a full backlog, and a wait left unserved for 2^32 - 1 ticks
  (`HostWakeDrain.DrainBoundExact`, `HostWakeDrain.OverrunReached`).
- **Phase and late ticks.** Ticks five intervals apart keep the channel but not the phase: the servo can take the poll
  five slots on for the present one. Two ticks of error are kept if and only if the ticks that are not held come less
  than four intervals and eleven ticks apart (`HopTracking.PhaseGapExact`). A parked connection wants one every
  interval (`HopTracking.LateTicksLoseThePark`).
- **A probe timeout served late.** A `REST_PROBE_TIMEOUT` served 976 ticks late lets the next probe's event come up
  inside the probe, where it is dropped. Stage 1 is then left with no probe armed until the host speaks
  (`LinkStall.LaterTimeoutsStallRest`). That delay is the exact limit (`LinkStall.NeverStallsExactly`).
- **A late START.** The event an unbonded boot posts to itself ends a pairing begun before it is served
  (`LinkSafety.LateStartEndsAPairing`), and nothing else (`LinkSafety.StartEndsOnlyAPairing`).
- **Spent requests.** A host wake does not always spend the request that was slept on, nor a drain timeout the one
  that was pending. With no further A6 54, a requested sleep can still be entered after a wake if and only if a
  repeated A6 54 was waiting (`PowerSleepRuns.SleptOnAfterAWake`), and after a drain timeout if and only if an earlier
  request was already in the power layer (`PowerSleepRuns.SleptOnAfterGivingUp`). Both are reached from boot.
- **A6 56 after the hand-over.** Renegotiating does not withdraw a sleep request already in the power layer
  (`PowerSleepRuns.UnlockDoesNotWithdraw`); only a state-changing frame or a host wake does.

## Environments

The dongle, the host MCU, the radio, TMOS and the vendor sleep are not in the repository, or are foreign to it. They
are assumed to do no more than this: the dongle flips its control bit once per response it hears and relays LED bytes
at will; the host acknowledges each copy of a frame at most once and, where a property says so, within two ACK
timeouts; the radio delivers, loses or delays anything, but receives only while it listens, and is off only after
`RF_Shut`; TMOS fires a timer at its deadline or later and serves set event bits in any order, START first, stop
removing both. Where a property speaks of the dongle's hop, it polls once an interval on the next of five channels.
Handlers are atomic except where the code reasons about interrupts: the report ring, the receive ring and the LED
bytes are modelled access by access.

## Model

| member | source | states |
|---|---|---|
| `Words.SinceRealTime` | firmware/src/host_wake.c:162-178 | a 32-bit tick difference never exceeds the real time passed and is exact below one wrap |
| `RtcClock.Clock.Advance` | firmware/src/rtc_clock.c:10-31 | the clock object advances as the specification reading does, and returns its elapsed ticks |
| `RtcClock.OneSampleExact` | firmware/src/rtc_clock.c:10-31 | one read keeps the clock right if and only if it is at most `backstep` behind the newest value and less than modulus minus `backstep` ahead |
| `RtcClock.ElapsedIsNewestMinusFirst` | firmware/src/rtc_clock.c:10-31 | over any well-read run, wraps and stale reads straddling one included, elapsed is newest value seen minus first, modulo 2^32 |
| `RtcClock.ElapsedIsMonotone` | firmware/src/rtc_clock.c:10-31 | a further sample raises elapsed by exactly how much newer it is, and a stale one not at all |
| `HostWake.Wake.constructor` | firmware/src/host_wake.c:15-44 | a fresh machine is idle and empty; zero attempts become one |
| `HostWake.Wake.Enqueue` | firmware/src/host_wake.c:46-59 | the queue grows by the frame at its end, or a full queue refuses it and is untouched |
| `HostWake.Wake.SetLatest` | firmware/src/host_wake.c:61-66 | the slot holds the newest value and is pending; nothing else moves |
| `HostWake.Wake.OnAck` | firmware/src/host_wake.c:68-73 | an ACK is noted only while one is awaited |
| `HostWake.Wake.Transmit` | firmware/src/host_wake.c:80-93 | a copy of the outstanding frame goes out, counted and timed |
| `HostWake.Wake.SendNext` | firmware/src/host_wake.c:95-115 | the slot goes first, but never twice running past a queue |
| `HostWake.Wake.Retire` | firmware/src/host_wake.c:117-150 | the outstanding frame is let go; after a resend or an abandonment a quarantine follows, else the next frame goes at once; an abandoned slot value with none newer waiting is recorded as lost, and an acknowledged one never (`HostWakeWire.LostExactly`) |
| `HostWake.Wake.Step` | firmware/src/host_wake.c:152-197 | one step does what the specification step does, and reports the line and the frame it sends |
| `HostWake.Wake.TakeLatestLost` | firmware/src/keyboard_uart.c:247-257 | the loss of an abandoned slot value is handed over once |
| `HostWakeHistory.QueueRefinesFifo` | firmware/src/host_wake.c:46-202 | over any run accepted frames are first sent in order, resends repeat the bytes before them, accepted is retired plus held, and nothing is sent before the guard time |
| `HostWakeHistory.LineLowExactlyWhenIdle` | firmware/src/host_wake.c:152-202 | after each step the line is low if and only if nothing is queued, pending or outstanding |
| `HostWakeHistory.LatestStartIsNewest` | firmware/src/host_wake.c:61-66 | a slot value that starts is the newest one set |
| `HostWakeHistory.QueuedFrameNotStarved` | firmware/src/host_wake.c:95-115 | a frame k places from the front of those not yet sent is first sent within 2(k+1) frame starts |
| `HostWakeHistory.LatestValueNotStarved` | firmware/src/host_wake.c:95-115 | a set slot value, in its newest version, is sent within two frame starts |
| `HostWakeWire.WireFollowsHistory` | firmware/src/host_wake.c:46-202 | over every run from power-up each step raises, holds or drops the line and puts on the wire what a separate account of the events calls for, frame by frame and copy by copy, and the loss flag is up exactly when a slot value has been abandoned with none newer set since it was last asked for |
| `HostWakeWire.LostExactly` | firmware/src/host_wake.c:117-150 | a step calls a slot value lost if and only if its copies on the wire have reached the attempts, no ACK came since the last, that copy is a timeout old and no newer value is set |
| `HostWakeAck.NoMisattributedAck` | firmware/src/host_wake.c:117-186 | if the host answers each copy once and within two timeouts, no ACK is credited to or retires any frame but its own, across tick wrap |
| `HostWakeAck.WrappedTimeoutMisattributes` | firmware/src/host_wake.c:177-183 | for every timeout of 2^31 ticks or more, any guard and any attempts, the quarantine wraps and there is such a run in which an ACK of frame 1 retires frame 2 |
| `HostWakeAck.AttributionExact` | firmware/src/host_wake.c:117-186 | so a host that answers in time is never misunderstood if and only if twice the timeout fits 32 bits |
| `HostWakeDrain.StepDecreases` | firmware/src/host_wake.c:152-197 | every step that does not leave the machine idle lowers a measure of the ticks left |
| `HostWakeDrain.DrainBound` | firmware/src/keyboard_uart.h:42-51 | with nothing more offered the machine is idle within (8+2)(guard + (attempts+1) timeout) ticks, from every valid state that does not overrun |
| `HostWakeDrain.OverrunsTheBudget` | firmware/src/host_wake.c:152-197 | in a state that overruns, a host that never answers leaves the machine busy past that budget |
| `HostWakeDrain.DrainBoundExact` | firmware/src/keyboard_uart.h:42-51 | so the budget holds for all ACKs if and only if the state does not overrun |
| `HostWakeDrain.OverrunReached` | firmware/src/host_wake.c:152-197 | and such a state is reached |
| `FrameParser.Parser.FrameIsValid` | firmware/src/keyboard_uart.c:306-323 | the check computed over the buffer in place is the frame's validity, which `FrameResync.WholeByItsBytes` states by plain sums |
| `FrameParser.Parser.ShiftRxBuf` | firmware/src/keyboard_uart.c:353-367 | shifting in place drops the first n bytes, or everything if no header is left in front |
| `FrameParser.Parser.ResyncParser` | firmware/src/keyboard_uart.c:369-379 | the buffer moves to its next header, or empties |
| `FrameParser.Parser.ProcessRxBuf` | firmware/src/keyboard_uart.c:381-393 | the loop ends and leaves what repeated dispatch and resynchronisation leave; `FrameResync.InvalidFrontKeepsTheRest` and `FrameResync.FalseHeaderCostsItself` say what that is after an invalid frame |
| `FrameParser.Parser.FeedByte` | firmware/src/keyboard_uart.c:395-411 | one byte takes the parser to the state the received stream defines |
| `FrameParserProofs.DispatchedFramesAreGenuine` | firmware/src/keyboard_uart.c:285-411 | dispatched frames are valid, contiguous, disjoint and ordered runs of received bytes |
| `FrameParserProofs.NoiseFlushes` | firmware/src/keyboard_uart.c:369-411 | twenty bytes that start no frame empty the buffer from any reachable state |
| `FrameParserProofs.NineteenDoNotFlush` | firmware/src/keyboard_uart.c:285-304 | nineteen do not: an unfinished name frame takes them all |
| `FrameParserProofs.ValidFramesAreAllDispatched` | firmware/src/keyboard_uart.c:325-411 | from empty, valid frames separated by non-header bytes are dispatched exactly once each, in order, and nothing else is |
| `FrameParserProofs.RecoversAfterNoise` | firmware/src/keyboard_uart.c:369-411 | after any garbage and twenty non-header bytes every valid frame gets through |
| `FrameResync.WholeByItsBytes` | firmware/src/keyboard_uart.c:306-323 | the valid frames of each of the four kinds, by length, leading byte and the plain sum of their bytes |
| `FrameResync.InvalidFrontKeepsTheRest` | firmware/src/keyboard_uart.c:369-393 | after an invalid frame in front the buffer is its own suffix from the first later byte that starts a frame |
| `FrameResync.FalseHeaderCostsItself` | firmware/src/keyboard_uart.c:381-411 | from empty, every valid frame sent back to back behind a byte that falsely starts one is dispatched, in order, and nothing else is |
| `FrameResync.NoiseBehindAFalseHeader` | firmware/src/keyboard_uart.c:353-393 | a frame behind noise behind such a frame is dispatched if and only if it begins beyond the false one |
| `RxRing.RxPort.IrqByte` | firmware/src/keyboard_uart.c:431-440 | the interrupt appends a byte to the ring, or latches the drop when it is full |
| `RxRing.RxPort.PollLatch` | firmware/src/keyboard_uart.c:454-465 | a latched hole empties the ring and resets the parser, in one masked step |
| `RxRing.RxPort.PollFeed` | firmware/src/keyboard_uart.c:469-469 | the byte at the tail is what the parser is handed |
| `RxRing.RxPort.PollAdvance` | firmware/src/keyboard_uart.c:470-470 | the oldest byte leaves the ring |
| `RxRing.RxPort.Poll` | firmware/src/keyboard_uart.c:443-472 | undisturbed, the loop hands the parser everything held in order, or after a hole only the reset |
| `RxRingRuns.FedInArrivalOrder` | firmware/src/keyboard_uart.c:424-472 | for every interleaving bytes reach the parser in arrival order, each at most once and unaltered |
| `RxRingRuns.ResetBeforeAnyLaterByte` | firmware/src/keyboard_uart.c:424-472 | after bytes dropped on a full ring, or an overrun at any but that moment, the parser is reset before any later byte |
| `RxRingRuns.LateOverrunFeedsPastTheGap` | firmware/src/keyboard_uart.c:454-470 | from every state in which that moment comes, an overrun and one more byte feed the parser from beyond the gap |
| `RxRingRuns.LateOverrunReached` | firmware/src/keyboard_uart.c:454-470 | and it comes after any first byte |
| `RxRingRuns.AtMostOneByteFedPastAGap` | firmware/src/keyboard_uart.c:454-470 | and never more than one |
| `RxRingRuns.NothingLostWithoutCause` | firmware/src/keyboard_uart.c:424-472 | while the ring does not overflow and the hardware loses nothing, every byte sent has been fed, in order and once, or is in the ring, and the parser is never reset |
| `RxFrames.FramesStoodOnTheLine` | firmware/src/keyboard_uart.c:381-472 | over every interleaving with no such overrun, each dispatched frame is valid and stood on the line as one unbroken run of bytes; none overlap and all come in order |
| `ReportRing.HidFifo.QueueHIDReport` | firmware/src/rf_task.c:2165-2217 | with acknowledgements striking anywhere in it, the call queues the report at the occupancy test and loses no retirement; what queueing keeps is `ReportRingRuns.RingHoldsTheLog` |
| `ReportRing.HidFifo.RetireOnAck` | firmware/src/rf_task.c:1047-1052 | an acknowledgement retires the head if it was in flight, and only then |
| `ReportRing.HidFifo.Overwrite` | firmware/src/rf_task.c:2196-2214 | coalescing replaces the newest entry and never touches the head's slot |
| `ReportRing.HidFifo.Discard` | firmware/src/rf_task.c:333-337 | a discard empties the ring and forgets the transmission |
| `ReportRing.HidFifo.SelectHead` | firmware/src/rf_task.c:1156-1177 | what is transmitted is the oldest entry |
| `ReportRing.OrderMattersOnlyWhenFull` | firmware/src/rf_task.c:2182-2216 | queueing and retiring commute if and only if the ring is not full |
| `ReportRingRuns.RingHoldsTheLog` | firmware/src/rf_task.c:2165-2217 | over every interleaving the ring holds exactly the host's reports since the last discard that have not been acknowledged, in order, repeats apart and, with sixteen waiting, the newest in place of the one before it |
| `ReportRingRuns.NewestStateIsNeverLost` | firmware/src/rf_task.c:2165-2217 | over any run occupancy stays within 16 and the newest entry, or the last retired one when none is left, is the newest report |
| `ReportRingRuns.SwallowedAfterDiscard` | firmware/src/rf_task.c:2168-2182 | after a discard a report is swallowed if and only if it repeats the newest queued state with no teardown between |
| `ReportLink.Uplink.OnPoll` | firmware/src/rf_task.c:1039-1053 | a poll copies the dongle's bit, toggles ours, and retires the head when the bit moved |
| `ReportLink.Uplink.DoResponseTx` | firmware/src/rf_task.c:1137-1208 | the response carries the head, which becomes retirable only if the transmission started |
| `ReportLink.Uplink.EnterConnected` | firmware/src/rf_task.c:1560-1573 | a new session restarts the control phase, keeps the queue and has nothing in flight |
| `ReportLink.AdvancedCopiesBit0` | firmware/src/rf_task.c:1039-1041 | the bit arithmetic copies the dongle's bit, and the test sees exactly a moved bit |
| `ReportControl.ControlByteCountsChanges` | firmware/src/rf_task.c:1039-1053 | over every run, in a session the control byte's first bit is that of the last poll caught, its second has flipped once for each change of it, and a pending response carries it |
| `ReportDelivery.RetiresByParity` | firmware/src/rf_task.c:1039-1053 | in every run a caught poll retires the head if and only if it is in flight and the dongle has heard an odd number of responses since the poll before |
| `ReportDelivery.UnheardTakesTwoResponses` | firmware/src/rf_task.c:1658-1665 | in every run an entry is retired unheard only after two responses were started for one poll |
| `ReportDelivery.RetiresExactlyWhatWasHeard` | firmware/src/rf_task.c:1039-1053 | in any run with one response per poll, a caught poll retires the head if and only if the dongle heard it in answer to the poll before, whatever was lost |
| `ReportDelivery.ReceivedIsPrefixUnlessUnheard` | firmware/src/rf_task.c:1155-1201 | in every run in which no entry was retired unheard the received log is a prefix of the host's reports since the last discard, adjacent repeats merged, what is retired was received, and the retired and the waiting are those reports |
| `ReportDelivery.ReceivedIsPrefixOfQueued` | firmware/src/rf_task.c:1155-1201 | with one response per poll the same, over any number of sessions: what the dongle has received is a prefix of what the host reported, and everything retired was received |
| `ReportDelivery.LateFinishLosesAReport` | firmware/src/rf_task.c:1658-1665 | a run from power-up, with two responses to one poll and no more, in which the next poll retires a report that was never heard |
| `ReportDelivery.OneResponseExact` | firmware/src/rf_task.c:1658-1665 | so runs with up to n responses to a poll retire nothing unheard if and only if n is at most one |
| `HopClock.HopScheduler.constructor` | firmware/src/rf_task.c:1560-1575 | a connection starts parked on the seed channel with the caught anchor |
| `HopClock.HopScheduler.Add` | firmware/src/rf_task.c:617-624 | the add loop is addition modulo the counter |
| `HopClock.HopScheduler.HopServo` | firmware/src/rf_task.c:841-864 | the anchor moves by one tick towards the poll, the short way round, or stays within the deadband |
| `HopClock.HopScheduler.OnPoll` | firmware/src/rf_task.c:1004-1084 | a caught poll pulls the anchor, unparks the hop and arms the response |
| `HopClock.HopScheduler.OnAnswered` | firmware/src/rf_task.c:1090-1121 | the end of a response releases the hop |
| `HopClock.HopScheduler.ConnectedTick` | firmware/src/rf_task.c:1654-1734 | on the wrapping counter the tick does what it does on unbounded time; `HopTracking.HoldExactly` and `HopTracking.LateTickCatchesUp` say what that is |
| `HopClock.DeltaIsElapsed` | firmware/src/rf_task.c:601-610 | on reads that do not step back the modular delta is the time passed |
| `HopClock.SignedDeltaIsDifference` | firmware/src/rf_task.c:635-642 | within half the modulus the signed delta is the difference, sign included |
| `HopTracking.HopKeepsStep` | firmware/src/rf_task.c:1624-1734 | from the making of the connection, ticked at least every five intervals (every interval while parked), the anchor is never ahead of now and at most an interval behind after a tick that is not held, and the index has moved by as many places as the anchor has moved intervals, parked slots and a drift of at most one tick forward and two back per poll apart |
| `HopTracking.NeverDesyncs` | firmware/src/rf_task.c:1686-1700 | the 64-interval reseed is never taken on such a connection |
| `HopTracking.LateTicksLoseThePark` | firmware/src/rf_task.c:1675-1685 | parked ticks any amount more than an interval apart lose that much each, without bound |
| `HopTracking.HoldCannotStarveTheHop` | firmware/src/rf_task.c:1654-1665 | with the main loop ticking every d and no poll caught on the channel a response holds, a tick that is not held comes every two intervals and two d, so for d up to an interval the hop keeps step |
| `HopTracking.HoldExactly` | firmware/src/rf_task.c:1654-1665 | after a poll caught at t0 a tick whose check reads the clock by t0 + 2 intervals changes nothing of the hop, the pending response included, one that reads it later takes the response for lost, and a response that is done is not waited for |
| `HopTracking.ServoClosesIn` | firmware/src/rf_task.c:841-864 | each poll brings the anchor one tick nearer to where the poll began until it is one away, and never takes it further off |
| `HopTracking.LateTickCatchesUp` | firmware/src/rf_task.c:1686-1724 | up to 64 intervals behind, index and anchor move on together by whole intervals, as many as fit, at most five; past that the phase alone starts afresh |
| `HopTracking.ThirteenTicksSuffice` | firmware/src/rf_task.c:1686-1724 | a stall of up to 64 intervals is made up in thirteen ticks |
| `HopTracking.PhaseErrorStaysBounded` | firmware/src/rf_task.c:841-864 | against an exact-grid dongle, from the poll that unparks the connection on, the phase error stays within max(initial, 2 + jitter) through any missed polls while the gap between ticks keeps the poll five slots on out of reach |
| `HopTracking.LateTicksLetThePhaseSlip` | firmware/src/rf_task.c:841-864 | for every interval and every gap from four intervals and eleven ticks up, a run from the making of a connection in which the error grows to three |
| `HopTracking.PhaseGapExact` | firmware/src/rf_task.c:841-864 | so two ticks of error are kept if and only if the gap is less than four intervals and eleven ticks |
| `LedRelay.LedTask.OnRelay` | firmware/src/rf_task.c:1055-1065 | the interrupt always keeps the newest byte and posts the handler when it differs from the one sent |
| `LedRelay.LedTask.NotifyLed` | firmware/src/rf_task.c:1297-1310 | the handler, with a relay possible before each of its steps, does what its specification run does |
| `LedRelay.LedTask.ResyncIfLost` | firmware/src/main.c:495-498 | a recorded loss makes the next relay count as new, wherever the interrupt strikes |
| `LedRelay.HandledKeepsAgreement` | firmware/src/rf_task.c:1297-1310 | the handler so interrupted is a run of events and leaves the agreement standing |
| `LedRelay.LedAgreement` | firmware/src/rf_task.c:1297-1310 | by the module's own account: always the LED byte it last saw acknowledged is the newest relayed, or a send of it is on its way, or the loss is recorded |
| `LedHost.HostAgrees` | firmware/src/rf_task.c:1297-1310 | by the host's: for a host that answers each copy within two timeouts, always the byte of the last LED copy it answered is the newest relayed, or a send of it is on its way, or the loss is recorded |
| `LedHost.DeliveriesAreAnswered` | firmware/src/host_wake.c:152-186 | whenever the module lets an LED frame go as acknowledged, its byte is the one the host answered last |
| `LedRelay.ForgettingForwardsTheNextRelay` | firmware/src/rf_task.c:1607-1611 | after a connect or a resync the next relay, once the handler has run, is in the slot and pending whatever it repeats; the marker byte alone leaves the slot as it was |
| `LedRelay.UndisturbedHandlerSends` | firmware/src/rf_task.c:1297-1310 | left alone, the handler leaves the newest byte in the slot and recorded as sent |
| `LedRelay.RepeatsAreNotSent` | firmware/src/rf_task.c:1055-1065 | a relay of the byte last sent posts nothing by itself and leads to no frame |
| `LedRelay.ForgetsOnlyAfterALoss` | firmware/src/main.c:495-498 | the main loop forgets what it sent if and only if a loss was recorded, and takes the record once |
| `RfTask.Rf.constructor` | firmware/src/rf_task.c:1781-1874 | boot with a bond and an identity starts a bonded search, otherwise it is idle with START posted |
| `RfTask.Rf.OnPairFrame` | firmware/src/rf_task.c:938-983 | a LEN-15 is adopted as the bond, refused, or kept as a catch of the present pairing |
| `RfTask.Rf.OnPoll` | firmware/src/rf_task.c:1031-1084 | a poll retires on acknowledgement, kicks supervision and arms the turnaround |
| `RfTask.Rf.OnTxFinish` | firmware/src/rf_task.c:1090-1117 | a completed answer counts towards a silent probe's end and nothing else does |
| `RfTask.Rf.OnRxRestart` | firmware/src/rf_task.c:1228-1251 | RX re-arms when connected or with the window open, and the first restart of an epoch fixes the window's end |
| `RfTask.Rf.PairBroadcast` | firmware/src/rf_task.c:1489-1532 | a beacon re-arms itself, opens the window and clears the last epoch's closing timer |
| `RfTask.Rf.OnEnterConnected` | firmware/src/rf_task.c:1534-1615 | a catch becomes the session, silently for a probe, as a promotion for a woken one, announced otherwise |
| `RfTask.Rf.DoResponseTx` | firmware/src/rf_task.c:1137-1208 | a started response marks the head, a refused one releases the hop |
| `RfTask.Rf.OnRestIdle` | firmware/src/rf_task.c:1325-1340 | the idle timer rests the link or tries again shortly |
| `RfTask.Rf.OnRestProbe` | firmware/src/rf_task.c:1342-1350 | a stage-1 probe re-arms its cadence and then starts |
| `RfTask.Rf.OnRestProbeTimeout` | firmware/src/rf_task.c:1352-1363 | a silent probe ends, a woken one goes on searching |
| `RfTask.Rf.OnDisconnect` | firmware/src/rf_task.c:1375-1413 | supervision tears the session down, keeps the queue and forgets the newest state |
| `RfTask.Rf.OnStart` | firmware/src/rf_task.c:1220-1226 | the first event of an unbonded boot goes idle and shuts the radio |
| `RfTask.Rf.ProcessEvent` | firmware/src/rf_task.c:1210-1416 | each event bit is taken and handled by its own branch |
| `RfTask.Rf.ConnectedTick` | firmware/src/rf_task.c:1624-1665 | the link's part of the tick ends an answered probe, restarts supervision once per kick (`LinkTimers.SupervisionCountsFromThePolls`) and releases an overdue response |
| `LinkHop.ConnectedTick` | firmware/src/rf_task.c:1624-1734 | the whole tick on the wrapping counter: a response is released and the channel moved exactly as the hop's clock says, and response_pending stays one flag |
| `LinkHop.RespondsInTime` | firmware/src/rf_task.c:1137-1208 | a poll caught on a live link whose event is served within two intervals goes on air, wherever the ticks of the main loop fall |
| `RfTask.Rf.RestGoQuiet` | firmware/src/rf_task.c:1899-1915 | the radio goes off and every link timer with it; the rest stage and its cadence stay |
| `RfTask.Rf.RestProbeStart` | firmware/src/rf_task.c:1928-1954 | a probe is a bonded search with its own timeout, or without a bond the end of rest |
| `RfTask.Rf.RestPromoteToNormal` | firmware/src/rf_task.c:1964-1974 | a probe becomes the session: rest is over, supervision and the idle timer restart |
| `RfTask.Rf.Select2G4` | firmware/src/rf_task.c:1988-2037 | selecting keeps a live link, promotes a connected probe, or quiesces and searches; it answers whether there is a bond |
| `RfTask.Rf.EnterPairing` | firmware/src/rf_task.c:2039-2077 | a fresh pairing sweeps any catch and opens its window, and is refused on a live link |
| `RfTask.Rf.DisconnectNow` | firmware/src/rf_task.c:2079-2101 | the link goes idle and dark with every link timer, the queue kept |
| `RfTask.Rf.Leave` | firmware/src/rf_task.c:1977-1986 | leaving 2.4 GHz also sets the timer that drops the queue |
| `RfTask.Rf.ClearBond` | firmware/src/rf_task.c:2119-2133 | the bond goes, and with it what is queued |
| `RfTask.Rf.QueueHIDReport` | firmware/src/rf_task.c:2165-2241 | every report is activity: it wakes a resting link, turns a probe into the session or restarts the idle timer |
| `RfTask.Rf.DeepSleepAllowedMeansShut` | firmware/src/rf_task.c:2148-2158 | however the link got here, where the code's test lets the module sleep its radio is off |
| `LinkSafety.NextKeepsInv` | firmware/src/rf_task.c:914-2158 | every interrupt, timer, handler, tick and host request keeps the radio, catch and rest invariants |
| `LinkSafety.RunKeepsInv` | firmware/src/rf_task.c:1210-1416 | so does every run |
| `LinkSafety.StartEndsOnlyAPairing` | firmware/src/rf_task.c:1220-1226 | served at any time, START can end an unbonded pairing and changes nothing else |
| `LinkSafety.LateStartEndsAPairing` | firmware/src/rf_task.c:1870-1874 | a run from boot in which it does |
| `LinkCatch.OnlyACatchConnects` | firmware/src/rf_task.c:1534-1545 | only the handler of a posted catch connects, only from PAIRING, and with that catch's parameters |
| `LinkCatch.NoStaleCatch` | firmware/src/rf_task.c:957-982 | every entry to CONNECTED is made from a catch of the stored dongle in the present pairing epoch, with a followable interval |
| `LinkCatch.CatchHasASource` | firmware/src/rf_task.c:957-982 | the catch in hand is a LEN-15 actually received while pairing, in its epoch and from the stored dongle |
| `LinkRadio.SleepableMeansShut` | firmware/src/rf_task.c:2148-2158 | at every handler boundary RF_CanDeepSleep implies the radio is shut |
| `LinkRadio.NoSleepOnALiveRadio` | firmware/src/power_sleep.c:583-630 | the idle callback never enters deep sleep on a live radio |
| `LinkRadio.ClosedUntilReopened` | firmware/src/rf_task.c:1228-1272 | a bonded listen window once closed stays closed, the radio off, over every run up to the next beacon, connection, host request or end of the search; a new search begins with its own window open |
| `LinkRadio.OpenWindowKeepsItsEnd` | firmware/src/rf_task.c:1510-1531 | an open window's end is never moved by RX restarts |
| `LinkRadio.ListeningIsBounded` | firmware/src/rf_task.c:1241-1249 | a bonded search listens for six ticks after a beacon plus the delay of the closing event |
| `LinkReports.RestCoversNothing` | firmware/src/rf_task.c:1325-1340 | resting and throughout silent probes the report queue is empty and no key is down that the dongle has not released |
| `LinkReports.RestsExactlyWhenReleased` | firmware/src/rf_task.c:1325-1340 | the idle timer rests the link if and only if nothing is undelivered, no response is out and no key is down since the last teardown |
| `LinkDelivery.RestHasDelivered` | firmware/src/rf_task.c:1325-1340 | over every joint run of link and dongle with one response per poll, in rest everything the host has reported since the last discard has been retired and the dongle has received exactly these reports, repeats merged |
| `LinkReports.HostReportKeepsReports` | firmware/src/rf_task.c:2218-2240 | a host report ends rest and silence at once |
| `LinkReports.PollDuringReport` | firmware/src/rf_task.c:2165-2241 | a poll that strikes a report between its occupancy test and its end leaves what one straight after it does |
| `LinkTimers.SupervisionCountsFromThePolls` | firmware/src/rf_task.c:1644-1651 | over every run from boot a live link is dropped no earlier than 5000 ticks after the last of its making, a tick that found a poll caught since the tick before, or a probe made the session |
| `LinkTimers.BeaconsKeepComing` | firmware/src/rf_task.c:1489-1532 | over every run a search has its next beacon posted or due within 32 ticks; a first pairing listens throughout, its end posted or due within 8480, and a bonded search has none |
| `LinkTimers.RestsAfterQuiet` | firmware/src/rf_task.c:1325-1340 | over every run a session has its idle timer running, and rests only by it, 4800 ticks or more after it began and after the host's last report |
| `LinkTimers.RestRunsItsCourse` | firmware/src/rf_task.c:1342-1373 | over every run a probe's timeout is posted or due within 640 ticks and stage 1's end within 2880000, and after it no probe is left to come |
| `LinkTimers.LeavingKeepsTheQueueAWhile` | firmware/src/rf_task.c:1977-1986 | leaving drops the queue after 800 ticks and no sooner, and a selection in between keeps it |
| `LinkQueue.ReportsAreKept` | firmware/src/rf_task.c:1977-1986 | over every run an event leaves all the waiting reports, but for the one it adds, the one a poll acknowledges, an unpairing, which drops them, and the discard, which comes 800 ticks or more after the host left with no selection or unpairing since |
| `LinkStatus.EveryStepAccounted` | firmware/src/rf_task.c:938-983 | for every event in every state: which status bytes it sends, that the bond changes by an adoption or an unpairing alone, that a good LEN-15 posts exactly its catch, and that a posted catch served while pairing connects to it |
| `LinkProbes.TwoAnswersEndAProbe` | firmware/src/rf_task.c:1090-1117 | over every run a tick ends a connected silent probe with no response out if and only if two of its responses have completed; started and failed ones do not count |
| `LinkProbes.ReportsMakeSessions` | firmware/src/rf_task.c:2218-2240 | over every run a connected probe is a silent one, and after a report no link rests, no probe is silent, and a connected link is the session, undisturbed |
| `LinkDuties.DutiesByHistory` | firmware/src/rf_task.c:1031-1128 | over every run a response is pending on a live link if and only if one is owed, the bond's save if and only if a session not a silent probe's is still unsettled, and a poll posts it; and the receiver is going or is set going by what is posted, on the air or owed |
| `LinkSelect.SelectedUntilReported` | firmware/src/rf_task.c:1988-2037 | over every run, once a bonded keyboard has selected 2.4 GHz it is connected, resting, or in a bonded search without an end, whatever but the host's own requests comes, until a 5B 33 has been sent; a live session is not disturbed |
| `LinkHeldKey.RestsUnderAHeldKey` | firmware/src/rf_task.c:323-329 | a run from boot that rests while the newest report holds a key |
| `LinkRest.RestIsSilentAndNeverStalls` | firmware/src/rf_task.c:1899-1960 | from rest entry to the next host frame no status is sent, supervision cannot come due, every probe has its 640-tick timeout running and stage 1 has its next probe armed |
| `LinkRest.ProbesFireInResting` | firmware/src/rf_task.c:1342-1350 | a stage-1 probe event is only ever served in RESTING, and starts a silent probe at once, its timeout 640 ticks and the next probe 1616 ticks off |
| `LinkRest.TimeoutsEndProbes` | firmware/src/rf_task.c:1352-1363 | a probe's timeout ends it in RESTING |
| `LinkStall.LaterTimeoutsStallRest` | firmware/src/rf_task.c:1342-1363 | a run from boot in which a timeout served 976 ticks late, and none later, ends in RESTING, stage 1, with no probe armed, and no event but a host frame ever arms one again |
| `LinkStall.NeverStallsExactly` | firmware/src/rf_task.c:1342-1363 | so over all runs from all boots stage 1 keeps its next probe armed if and only if timeouts are kept waiting for less than 976 ticks |
| `SleepProtocol.SleepProto.OnFrame` | firmware/src/sleep_protocol.c:16-66 | the reducer object folds a frame, and answers, as the specification does |
| `SleepProtocol.SleepProto.Reset` | firmware/src/sleep_protocol.c:9-14 | boot clears all three latches |
| `SleepProtocol.LatchesByHistory` | firmware/src/sleep_protocol.c:16-78 | each latch holds exactly when the history of frames says so: unlocked, auto-sleep and pending, each an if and only if |
| `SleepProtocol.AnswersTellTheLatch` | firmware/src/sleep_protocol.c:16-66 | the answer is ARM exactly when a pending sleep begins, CANCEL exactly when one ends but by an unlock, READY exactly to an unlock |
| `SleepProtocol.ElapsedNeverOverstates` | firmware/src/sleep_protocol.c:80-90 | elapsed ticks never exceed the time passed, and equal it short of a wrap less the tolerance |
| `PowerSleep.PowerUnit.OnFrame` | firmware/src/main.c:109-131 | a frame folds the reducer, mirrors auto-sleep, restarts the holdoff, withdraws a request if it is state-changing, and latches A6 81 |
| `PowerSleep.PowerUnit.Service` | firmware/src/main.c:318-363 | a pass waits, stands down or disconnects and asks for the sleep, the update entry always winning |
| `PowerSleep.PowerUnit.HoldoffExpired` | firmware/src/power_sleep.c:264-281 | raw bytes restart the holdoff; it is over only once its time has passed |
| `PowerSleep.PowerUnit.SleepUntil` | firmware/src/power_sleep.c:400-505 | a sleep is entered only inside the window and with no wake source asserted; a host wake restarts the holdoff |
| `PowerSleep.PowerUnit.LowPower` | firmware/src/power_sleep.c:558-631 | the idle callback's result and latches are those of its specification |
| `PowerSleep.SleepsToTheDeadline` | firmware/src/power_sleep.c:407-433 | across the RTC wrap the window test accepts exactly the deadlines between the two limits away |
| `PowerSleep.OutsideTheWindow` | firmware/src/power_sleep.c:400-433 | a deadline outside the window is refused with 2 wherever another would be slept to |
| `PowerSleepRuns.SleepsByHistory` | firmware/src/power_sleep.c:583-630 | a sleep is entered only on an A6 54 that came after an A6 56 and after the last moment no request stood, with no state-changing frame since, or on an A6 57 standing since the last A6 56/51/52/63 and past the holdoff since the host's last frame, raw bytes or wake; never after A6 81, with the radio off and the UART quiet |
| `PowerSleepRuns.SleepsExactlyWhen` | firmware/src/power_sleep.c:583-630 | over every run an idle pass that nothing vetoes enters a sleep if and only if no A6 81 has come and either a request is in the power layer and the radio idle, or none is, auto-sleep stands, the radio can sleep and the holdoff is over since the host's last sign |
| `PowerSleepRuns.HoldoffStaysOver` | firmware/src/power_sleep.c:264-281 | a holdoff once found over stays over until the host's next sign, however often the counter wraps |
| `PowerSleepRuns.RequestEndsOnlyByHost` | firmware/src/power_sleep.c:522-542 | a request in the power layer ends if and only if a state-changing frame comes or a sleep it led to sees a host edge |
| `PowerSleepRuns.SpentRequestsDoNotSleep` | firmware/src/power_sleep.c:522-542 | in every run, once a host edge or a drain timeout has ended the last request that stood, only an automatic sleep is entered until the next A6 54 |
| `PowerSleepRuns.SleptOnExactlyWhenStanding` | firmware/src/power_sleep.c:583-630 | with no further A6 54 a requested sleep can still be entered if and only if a request is pending or in the power layer, no update is pending and the sleep window is not empty |
| `PowerSleepRuns.SleptOnAfterAWake` | firmware/src/power_sleep.c:522-542 | after a host edge ends a requested sleep it can if and only if another A6 54 was waiting |
| `PowerSleepRuns.SleptOnAfterGivingUp` | firmware/src/main.c:318-363 | after Power_Service gives up on a pending request it can if and only if an earlier one was already in the power layer, no update is pending and the window is not empty |
| `PowerSleepRuns.RepeatedRequestSleepsTwice` | firmware/src/main.c:318-363 | from boot, an A6 54 repeated after the hand-over outlives the wake and can be slept on in turn |
| `PowerSleepRuns.DrainedRepetitionLeavesTheFirst` | firmware/src/main.c:343-355 | from boot, the repetition drains out of time and its forerunner can still be slept on |
| `PowerSleepRuns.UnlockDoesNotWithdraw` | firmware/src/main.c:128-130 | an A6 56 after the hand-over leaves the request standing |
| `PowerSleepRuns.DrainIsBounded` | firmware/src/main.c:343-355 | Power_Service does not wait beyond its drain bound |
| `PowerSleepRuns.RequestWaitsForTheUart` | firmware/src/main.c:343-355 | through any passes that find TX busy inside the bound a request is neither handed over nor dropped; the next hands it over if TX is idle, goes on waiting if not, and gives it up at the bound |

## Left out

- `ReportDelivery.RetiresExactlyWhatWasHeard`: asks that no second response be started for a poll; without that it is false, as `ReportDelivery.LateFinishLosesAReport` shows, and `ReportDelivery.RetiresByParity` is what holds.
- `ReportDelivery.ReceivedIsPrefixOfQueued`: asks the same, and `ReportDelivery.ReceivedIsPrefixUnlessUnheard` is what holds without.
- `RxRingRuns.ResetBeforeAnyLaterByte`: excludes hardware overruns at the one moment of `RxRingRuns.LateOverrun`, where it is false.
- `RxFrames.FramesStoodOnTheLine`: excludes the same.
- `LinkDelivery.RestHasDelivered`: asks that no second response be started for a poll, as `ReportDelivery.ReceivedIsPrefixOfQueued` does.
- `HopTracking.PhaseErrorStaysBounded`: asks for ticks less than about four intervals apart where the channel needs only five; `HopTracking.PhaseGapExact` shows that limit exact.
- `HopTracking.HoldCannotStarveTheHop`: takes it that no poll is caught within two intervals and d of the one before unless a tick that was not held came between; the dongle is back on a held channel only after five intervals.
- `HostWakeAck.NoMisattributedAck`: asks that twice the ACK timeout fit 32 bits, beyond which it is false (`HostWakeAck.AttributionExact`).
- `LedHost.HostAgrees`: asks the same.
- `PowerSleepRuns.SleepsExactlyWhen`: asks for less than a counter's wrap since the host's last sign; past it `PowerSleepRuns.HoldoffStaysOver` is what holds.
- `HopTracking.LateTickCatchesUp`: is for connections that have caught a poll; `HopTracking.HopKeepsStep` and `HopTracking.LateTicksLoseThePark` have the parked ones.
- `RfTask.Rf.QueueHIDReport`: takes the whole call as atomic; `ReportRing.HidFifo.QueueHIDReport` has the interrupts, and `LinkReports.PollDuringReport` shows that whole calls lose no interleaving.
- `RfTask.Rf.ConnectedTick`: takes whether the response is overdue and whether the channel changes as parameters; `LinkHop.ConnectedTick` supplies both from the hop's clock.
- The `static` variables that belong together (the listen window, the bond, the response, the rest flags) are fields of small records in class `RfTask.Rf`, one assignment to a record for one to a variable.
- Radio channels, access addresses, `RF_Config` and its caching, RSSI, pairing payload bytes, the order of pairing channels: hardware set-up with no branch a property depends on.
- Bond flash record, checksum and the deferred save beyond its pending flag; the factory MAC and identity set-up.
- TMOS, the BLE library, the vendor's deep sleep, GPIO, PFIC and RTC registers: foreign code. A timer is a deadline and an event bit.
- The shallow WFE idle sequence and the heartbeat in main.c: they rest on the core's event semantics.
- OpenBoot_Service beyond the latch that vetoes sleep, UART transmission byte by byte, the replies main.c sends to host frames.
- Diagnostic counters, the trace ring, the diagnostic dump and frame code, the image identity, bench-only `#if` variants, hardware files, tools and documents.
- Backward steps of the RTC in the hop: its properties are stated for reads that do not step back, as the 1024-tick tolerance covers only steps that do not cross the modulus.
