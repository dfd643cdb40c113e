# FlowPing in Dafny

FlowPing sends UDP probes along a rate profile and accounts for the replies. This project models its hard parts in Dafny and proves what they keep over every run.

- **The lock-free ring** (`SpscQueue`, `SpscRuns`, `SpscRing`, `SpscBlindPop`, with index arithmetic in `Wrapping`). One producer and one consumer take turns at single atomic loads, stores and slot accesses. A schedule is any sequence of these steps. The two private caches of the other side's index are part of the state. Every schedule is shown to be a run of a bounded FIFO. `SpscRing.Ring` is the same queue as an object, and each of its methods is one schedule of the step model.
- **The traffic schedule** (`TrafficProfile`, `PacketDelay`, `SegmentWalk`, `PacketCursor`, `PacketSchedule`, `ProfilePlan`, `TrafficGenerator`). The profile is unrolled periodically and walked by a cursor. `ProfilePlan.Plan` says from the points alone what should come out. Times are whole nanoseconds, rates whole bits per second; the casts of the code are floors of exact quotients and square roots.
- **Generator, ring and sender together** (`PacketFactory`, `PacketDelivery`, `PacketSender`). The factory measures the buffer before it pushes, the sender asks before it reads, and the send loop numbers what goes out.
- **Accounting** (`SlotStats`, `JitterEstimate`, `ClientStats`, `SlotReports`, `ClientBroker`, `ServerStats`, `ServerReports`, `ServerConnection`, `ServerQueue`). Slots, totals, the filter for repeated and late packets, loss ratios, and the jitter estimate of section 6.4.1 of RFC 3550. `ClientStats.Highest` and `ClientStats.Records` say what should count from the arrivals alone, and `SlotReports.InSlot` what belongs to one slot; the counters and every printed slot record are proved against them.
- **The control protocol** (`ControlMessage`, `Handshake`, `HandshakeRuns`). Any number of clients, one server, and a network that may lose, repeat and reorder. The server's past is kept in three sets that only grow.
- **Dispatch and timer** (`Dispatch`, `DispatchRings` and `DispatchProgress` on two lock-free rings, `SlotTimer`), and the **checksum** (`Crc16`, with word facts in `Words`).

Code that changes state step by step is a class or a loop here too: `SpscRing.Ring`, `TrafficGenerator.Generator`, `PacketSender.SendLoop`, `ClientBroker.Broker`, `ServerConnection.Connection`, `ControlMessage.Connection`, `Dispatch.Broker`, `SlotTimer.ServerTimer` and `Crc16.Crc`. Each method is proved equal to a function on values, and the theorems are about those functions.

Where the model finds that a promise does not hold as stated:

- A `pop` that no successful `front` preceded is harmless exactly when the consumer's cache of the write index is ahead of the read index (`SpscBlindPop.BlindPopExact`, `SpscBlindPop.BlindPopHarmlessExactly`). Otherwise the consumer taking what is left, with nothing published meanwhile, ends in a `front` that hands out a slot without an element (`SpscBlindPop.LaggingEndsWrong`); `SpscRuns.BlindPopBreaksFront` is the shortest such run. A producer that goes on until the cache equals the read index again heals it (`SpscBlindPop.LappedCacheHeals`, `SpscBlindPop.LappingHeals`).
- With a JSON record for each packet the client does not filter. The sum of received, duplicate and late packets is the number of arrivals exactly when every arrival sets a new highest number (`ClientStats.PerPacketCountsAll`), and its duplicate and its late count are both the filter's exactly when every arrival lies below the number of the arrival before it, or above the highest, or equals both (`ClientStats.PerPacketForgetsHighest`); their sum alone agrees exactly when no arrival lies above the one before it without exceeding the highest (`ClientStats.PerPacketAgainstFilter`).
- The count option limits the probes only below 2^32-1, because the loop variable has 32 bits (`PacketSender.ProbesAreNumbered`, `PacketSender.LargeCountIsNoLimit`).
- A started client need not have had its settings taken over. An unstarted connection takes an invite's settings over exactly when the invite names no file, or the file can be opened and is not in use; the client starts without that exactly when the file can not be opened and is not in use (`Handshake.InviteLatchesExactly`). Every started client was accepted or redirected (`Handshake.HandshakeIsSafe`).
- On a server with -X the asymmetric setting of a connection is the configured one exactly unless the client runs without -X and the last invite accepted before the connection was created had the X bit (`Handshake.AsymmetryAsConfigured`, `Handshake.AsymmetryLeaks`): that bit switches the mode of the whole server.
- The comment at src/sources/cServer.cpp:252 speaks of the first 10 seconds. The code compares two clock readings of the same message, so it drops every repeated invite unless the clock steps back by 10 s in between (`ControlMessage.RepeatedInvite`).
- Up to 65 connections are held, not 64 (`Handshake.ConnectionsBounded`, `Handshake.SixtyFiveFlows`).
- The slots that the server prints agree with what arrived and what was sent exactly when the connection's output file is open, or there is nothing to print (`ServerStats.PrintedSlotsAgree`): without a file no slot is ever printed.
- The server prints the mean delay and jitter of a slot a million times too small: both sums are in milliseconds when src/sources/cMBroker.cpp:559-560 divides by 10^6 again (`ServerReports.ConnReport`). The delay of a connection's first slot is exact only if the field, which nothing sets (src/sources/cCBroker.cpp:75-88), was zero.
- The printed client slots name all late and repeated arrivals exactly when each slot that has such an arrival has a packet too (`SlotReports.LateOnesNamed`): an empty slot prints zeros for them.
- The test that should keep a terminated connection from being initialised compares a control code with the type of the message (src/sources/cServer.cpp:177). It spares no control message, and any other message of type 8 (`ControlMessage.Connection.Receive`).
- The two reads of the first generator step are safe exactly when the profile starts before the deadline (`TrafficProfile.AtLeastTwoPoints`).

Assumptions that the theorems name: queue operations of one side are made by one thread; profile points have rates up to 256 Gbit/s and lengths of 32 to 1472 bytes (`PacketCursor.SanePoint`); system-clock stamps are not zero (`Dispatch.Proper`); the server's clock does not step back by 10 s within one message (`Handshake.SteadyRun`); a server connection changes once, from counting only to JSON output with a slot length (`ServerStats.WholeConnection`), and its output file is open from then on or never. Clocks, the socket, the file system and thread interleavings are inputs.

## Model

| member | source | states |
|---|---|---|
| SpscRuns.EveryScheduleIsFifo | src/external/SPSCQueue.h:105-199 | every interleaving of one producer and one disciplined consumer from construction is accepted by a FIFO of the requested capacity; what was pushed is what was popped followed by what is held; full, empty and size are never misjudged |
| SpscRuns.ReachableStatesAreSafe | src/external/SPSCQueue.h:109-118 | in every reachable state both caches stand for safe past counts, a slot about to be constructed is destroyed, and a consumer past a non-null front looks at the oldest element |
| SpscRuns.BlindPopBreaksFront | src/external/SPSCQueue.h:168-190 | one push and a pop without a front: the queue is empty, and the next front still returns a destroyed slot |
| SpscBlindPop.BlindPopExact | src/external/SPSCQueue.h:168-190 | from any state of the invariant, a blind pop keeps the caches conservative, and the invariant, if and only if the cached write index differs from the read index; it always removes exactly the oldest element |
| SpscBlindPop.BlindPopHarmlessExactly | src/external/SPSCQueue.h:168-190 | after a blind pop every front of every later disciplined schedule answers as the FIFO does, if and only if the same holds |
| SpscBlindPop.LaggingEndsWrong | src/external/SPSCQueue.h:168-177 | once the cache lags, the consumer taking the rest by front and pop, with nothing published meanwhile, ends in a front that shows a destroyed or an unpublished slot of an empty queue |
| SpscBlindPop.LappedCacheHeals | src/external/SPSCQueue.h:170-175 | a stale cache that equals the read index is reloaded: that front answers rightly and the whole invariant holds again |
| SpscBlindPop.LappingHeals | src/external/SPSCQueue.h:105-190 | a run in which one more push heals a stale cache |
| SpscRuns.SpinEndsWithRoom | src/external/SPSCQueue.h:114-116 | a spinning emplace stops at a reload if and only if there is room at that instant |
| SpscRuns.RunRefines | src/external/SPSCQueue.h:105-199 | from any state of the invariant every disciplined schedule is a FIFO run |
| SpscRuns.RunHistory | src/external/SPSCQueue.h:117-118 | published and released elements are exactly the enqueue and dequeue events, in order |
| SpscRuns.EveryEmplaceArrives | src/external/SPSCQueue.h:105-119 | no value is dropped: on every interleaving the values whose emplace began are, in order, those published followed by the one under way |
| SpscQueue.StepRefines | src/external/SPSCQueue.h:105-199 | one atomic step keeps the invariant and is one move of the FIFO |
| SpscQueue.ReloadRefines | src/external/SPSCQueue.h:131-136 | after the read index is reloaded, full is reported if and only if the queue holds its capacity |
| SpscQueue.RefillRefines | src/external/SPSCQueue.h:170-176 | after the write index is reloaded, null is returned if and only if the queue is empty, and otherwise the oldest element |
| SpscQueue.BuildKeepsInv | src/external/SPSCQueue.h:117 | construction happens only in a slot without a live element and disturbs no other slot |
| SpscQueue.PublishKeepsInv | src/external/SPSCQueue.h:118 | the store of the write index appends exactly the constructed element, and there was room |
| SpscQueue.ReleaseKeepsInv | src/external/SPSCQueue.h:184-189 | the store of the read index removes exactly the oldest element |
| SpscQueue.ProducerSizeExact | src/external/SPSCQueue.h:192-199 | size called by the producer is the true length at one instant of the call, for either order of its two loads |
| SpscQueue.ConsumerSizeExact | src/external/SPSCQueue.h:192-204 | the same for the consumer, hence also for empty |
| SpscRing.TryEmplaceIsSchedule | src/external/SPSCQueue.h:121-140 | the whole of try_emplace is a schedule of atomic steps |
| SpscRing.TryEmplaceEffect | src/external/SPSCQueue.h:121-140 | try_emplace appends when there is room and otherwise changes nothing but the cache |
| SpscRing.FrontEffect | src/external/SPSCQueue.h:168-177 | front returns the oldest element if and only if there is one |
| SpscRing.Ring.Emplace | src/external/SPSCQueue.h:105-119 | appends to the contents, leaves the consumer's side alone, at most one reload |
| SpscRing.Ring.TryEmplace | src/external/SPSCQueue.h:121-140 | true if and only if there was room, and then the contents grow by the value |
| SpscRing.Ring.Front | src/external/SPSCQueue.h:168-177 | the first of the contents or nothing |
| SpscRing.Ring.Pop | src/external/SPSCQueue.h:179-190 | drops the first of the contents |
| Wrapping.GapIsDistance | src/external/SPSCQueue.h:193-198 | the wrapped index difference is the number of elements |
| TrafficGenerator.Generator.RefactorTPoints | src/sources/cSetup.cpp:869-895 | the queue becomes the periodic unrolling of the profile: every output is the original point shifted by whole periods, all but the last before the deadline and the last at or after it; the loop ends and stays in bounds |
| TrafficProfile.UnrollingIsUnique | src/sources/cSetup.cpp:882-894 | that description has only one solution |
| TrafficProfile.UnrollingOrdered | src/sources/cSetup.cpp:882-894 | the unrolled times of an ordered profile never decrease |
| TrafficProfile.AtLeastTwoPoints | src/sources/cSetup.cpp:953-963 | two points are there for the first step if and only if the profile starts before the deadline |
| TrafficProfile.CommandLineProfileUsable | src/sources/cSetup.cpp:733-789 | which option combinations give a profile with a positive period, and which give nondecreasing times, exactly |
| TrafficProfile.CommandLineRates | src/sources/cSetup.cpp:743-785 | the options' profile is the rate line they ask for: the first rate for -t, a ramp of -R (or of -T without -R), then the second rate, in packets of the size; the last point is doubled |
| PacketDelay.SqrtFloor | src/sources/cSetup.cpp:939 | the largest whole root |
| PacketDelay.FirstGapFromZero | src/sources/cSetup.cpp:937-939 | the first gap of a ramp from zero is the largest whole one whose area is at most one packet |
| PacketDelay.DelayIsQuotient | src/sources/cSetup.cpp:930-945 | all branches with a positive rate are packet bits over the interpolated rate |
| PacketDelay.RateBetweenEndpoints | src/sources/cSetup.cpp:944 | the interpolated rate lies between the end rates |
| PacketDelay.LinePositive | src/sources/cSetup.cpp:944 | and is positive, so there is no division by zero |
| PacketDelay.DelayPositive | src/sources/cSetup.cpp:930-947 | every delay is at least 1 ns up to 256 Gbit/s |
| TrafficGenerator.Generator.GetNextPacketTS | src/sources/cSetup.cpp:925-948 | the branches compute the next timestamp of the segment |
| SegmentWalk.GapsFollowTheRamp | src/sources/cSetup.cpp:930-947 | over a whole segment gaps never grow on a rising ramp, also from zero, never shrink on a falling one, and are equal at a constant rate |
| SegmentWalk.NeverUnderSends | src/sources/cSetup.cpp:930-947 | on a level or falling segment the packets carry at least the bits under the rate line |
| SegmentWalk.NeverOverSends | src/sources/cSetup.cpp:930-947 | on a level or rising segment all packets but the last carry at most those bits plus one nanosecond of the end rate per packet |
| SegmentWalk.ConstantRateCount | src/sources/cSetup.cpp:931-932 | a constant rate emits exactly ceil((e-t0)/d) packets with the bit bounds that follow |
| TrafficGenerator.Generator.PrepNextPacket | src/sources/cSetup.cpp:951-1003 | one call changes cursor and buffer as the step function does, which `ProfilePlan.CallsKeepPlace` and `ProfilePlan.ScheduleIsPlan` pin from the points alone |
| ProfilePlan.CallsKeepPlace | src/sources/cSetup.cpp:955-998 | after any number of calls the cursor's start time, start rate and packet length are those of the point it passed last, and the points behind it are still to come |
| ProfilePlan.ScheduleIsPlan | src/sources/cSetup.cpp:951-1003 | the schedule is, segment by segment between neighbouring points, the walk of that segment's rate line in packets of its first point's length, entered where the last walk left off, silent segments skipped, cut at the deadline; rates are the points' in whole bit/s and times in whole milliseconds, rounded down |
| ProfilePlan.DrainWalks | src/sources/cSetup.cpp:968-985 | on a segment with traffic the generator emits the walk up to the deadline, and goes on only if all of it was before |
| PacketCursor.StepProgress | src/sources/cSetup.cpp:964-1002 | a step keeps the cursor well-formed, lowers (points left, distance to the segment's end), emits only times after the cursor and before the deadline, and says no only past the deadline |
| PacketCursor.DrainSound | src/sources/cSetup.cpp:951-1003 | until the first no: timestamps strictly increase below the deadline, and the cursor has reached it at the end, so the profile never runs out early |
| PacketSchedule.ProfileToPackets | src/sources/cSetup.cpp:869-1003 | the same from the definition points of the profile |
| PacketSchedule.ConstantRateConservation | src/sources/cSetup.cpp:964-998 | on a constant-rate segment left before the deadline the next packets that the generator emits are exactly ceil((e-t0)/d), d apart; they carry at least rate times time, in excess by less than one packet and the per-packet rounding, and the generator goes on from the last one |
| PacketSchedule.PacketsFollowTheRamp | src/sources/cSetup.cpp:930-998 | the gaps between the packets that the generator emits on a segment never grow on a rising ramp, also from zero, and never shrink on a falling one |
| PacketSchedule.PacketsNeverUnderSend | src/sources/cSetup.cpp:930-998 | what the generator emits on a level or falling segment carries at least the bits under the rate line |
| PacketSchedule.PacketsNeverOverSend | src/sources/cSetup.cpp:930-998 | all but the last packet that the generator emits on a level or rising segment carry at most those bits plus one nanosecond of the end rate each |
| PacketSchedule.DrainFollowsWalk | src/sources/cSetup.cpp:968-998 | the generator emits exactly the timestamps of a segment's walk and goes on from its end |
| PacketSchedule.SilentSegment | src/sources/cSetup.cpp:926-928 | a segment without traffic emits nothing |
| TrafficGenerator.Generator.FillBuffer | src/sources/cClient.cpp:112-116 | keeps what is sent, buffered and yet to come, and returns true if and only if the buffer is full |
| TrafficGenerator.Generator.RunPacketFactory | src/sources/cClient.cpp:101-126 | what was sent followed by what is buffered is always a beginning of the schedule, all of it once the generator said no; each wake-up finds the buffer full again, and the generator says no if and only if filling it would need more than the schedule has |
| PacketFactory.BufferNeverOverflows | src/sources/cClient.cpp:101-126 | for every network type and interleaving the buffer keeps its depth, no push finds the ring full, an announced packet is there when read, and the sender gets a beginning of the plan |
| PacketFactory.PromisesHold | src/sources/cClient.cpp:112-113 | in every reachable state room that size has shown is still there until the push, and a packet that nextPacket has announced until it is taken |
| PacketFactory.MeasuresDecide | src/sources/cClient.cpp:112 | the factory goes on if and only if the size it is shown is below the depth, the sender is told of a packet if and only if its size is above zero, and both sizes are true lengths at one moment of the call |
| PacketFactory.FactoryRound | src/sources/cClient.cpp:112-113 | left alone with room, the factory measures and publishes the next packet of the plan |
| PacketFactory.SenderRound | src/sources/cClient.cpp:418-419 | left alone with a packet buffered, the sender is told, reads it and takes it out |
| PacketDelivery.SenderFollowsProfile | src/sources/cClient.cpp:418-419 | from the profile through ring and threads: what the sender has received is a beginning of the schedule, strictly increasing and before the deadline |
| PacketSender.SendLoop | src/sources/cClient.cpp:413-466 | the loop computes the progress function that `PacketSender.SendIsExact` pins from the turns alone |
| PacketSender.ProbesAreNumbered | src/sources/cClient.cpp:414-466 | probes are numbered 1, 2, 3 in 32 bits without a gap; late packets and failed sends use no number; each taken packet is sent, late or failed; only the last probe can be past the deadline; a count below 2^32-1 is kept |
| PacketSender.SendIsExact | src/sources/cClient.cpp:413-466 | from the turns alone: packet k is taken on turn k until count, stop flag, empty buffer or deadline end the loop; it is dropped if and only if that turn begins more than 250000 ns after its target time, and otherwise is a probe, stamped with the time after waiting, if and only if the socket takes it; the late, failed and sent counts are exactly those |
| PacketSender.LargeCountIsNoLimit | src/sources/cClient.cpp:413-414 | a larger count stops nothing |
| PacketSender.RepliesNeverExceedProbes | src/sources/cMBroker.cpp:781-816 | whatever the network does, accepted replies are at most the highest number seen, which is at most the number of probes, and each reply counts once |
| ClientStats.FilterIsExact | src/sources/cMBroker.cpp:785-814 | a packet counts if and only if it sets a new highest number; counters, bytes, duplicates and jitter are those of the reference, sent packets included |
| ClientStats.RecordsIncrease | src/sources/cMBroker.cpp:786-795 | accepted numbers strictly increase and are no more than the highest |
| ClientStats.FilterIsSound | src/sources/cMBroker.cpp:871-899 | at most k packets count when numbers up to k were sent; arrivals are accepted, duplicate or late |
| ClientStats.SlotsBalance | src/sources/cMBroker.cpp:607-675 | at any time printed slots and open slots hold every counted packet and byte |
| ClientStats.ReportConserves | src/sources/cMBroker.cpp:906-970 | the report's slots add up to the totals in each direction, received spans add up to the last number seen, numbering has no gap, every loss ratio is in [0,1) |
| ClientStats.After | src/sources/cMBroker.cpp:626 | a received slot with packets always spans at least that many numbers: the division is safe and the branch for a span of 0 is never taken |
| ClientStats.PerPacketExact | src/sources/cMBroker.cpp:830-855 | with a record per packet every arrival counts as received, the number last seen is that of the last arrival, and all arrivals without a new highest number but the recoveries count as duplicate or late |
| ClientStats.PerPacketTotals | src/sources/cMBroker.cpp:819-855 | in that mode packets, bytes and jitter are those of all packets, sent and arrived, whether new, late or repeated |
| ClientStats.PerPacketCountsAll | src/sources/cMBroker.cpp:830-855 | received, duplicate and late add up to the arrivals if and only if every arrival sets a new highest number |
| ClientStats.PerPacketAgainstFilter | src/sources/cMBroker.cpp:830-855 | the sum of the two counts falls short of the filter's by the recoveries, and agrees if and only if there are none; the duplicate count differs from the filter's by the mistaken and the recovered arrivals |
| ClientStats.PerPacketForgetsHighest | src/sources/cMBroker.cpp:830-855 | the duplicate count and the late count are both those of the filter if and only if every arrival lies below the number of the arrival before it, or above the highest, or equals both |
| ClientStats.LateTakenForDuplicate | src/sources/cMBroker.cpp:830-838 | the shortest run in which the sums agree and the counts do not |
| ClientStats.RepetitionMissed | src/sources/cMBroker.cpp:830-855 | the shortest run in which a repetition is not noticed |
| ClientStats.JitterOfRun | src/sources/cMBroker.cpp:800-807 | the broker's jitter is the weighted sum over accepted packets and bounded by the largest difference |
| SlotStats.LossInRange | src/sources/cMBroker.cpp:626 | the loss ratio of a slot is in [0,1), and 0 if and only if nothing is missing |
| SlotStats.ClosingCounts | src/sources/cMBroker.cpp:609-656 | the printed record carries the slot's counts, its span and the next number |
| SlotStats.RecordTells | src/sources/cMBroker.cpp:626-631 | the record of a received slot: loss times span is what is missing, the means times the packets are the sums, and late and repeated counts are the slot's |
| SlotReports.ClientReport | src/sources/cMBroker.cpp:607-675 | every record of a run from the events alone: two at each tick and the final ones, each saying the packets, bytes, missing numbers, mean times, late and repeated arrivals since the tick before; a slot without packets says only whether sent packets are ahead, or at the end that all is lost |
| SlotReports.OpenSlots | src/sources/cMBroker.cpp:781-816 | at any time the open slots hold exactly what counted, and what was sent, since the last tick |
| SlotReports.LateOnesNamed | src/sources/cMBroker.cpp:637-656 | the printed records name all late and repeated arrivals if and only if each slot with such an arrival has a packet too |
| SlotReports.SilentPrintsNothing | src/sources/cMBroker.cpp:673 | a silent client prints no record |
| ClientBroker.Broker.PrepDataRec | src/sources/cMBroker.cpp:781-860 | updates the counters in place as specified in both JSON modes |
| ClientBroker.Broker.PingOutputRec | src/sources/cMBroker.cpp:862-903 | the same for text output |
| ClientBroker.Broker.CloseDataRecSlot | src/sources/cMBroker.cpp:607-675 | prints the slot unless silent and reopens it; `SlotReports.ClientReport` says what the record must be |
| ClientBroker.Broker.Means | src/sources/cMBroker.cpp:626-631 | computes the loss and the means that a record tells of its slot |
| ClientBroker.Broker.PrepFinalDataRec | src/sources/cMBroker.cpp:906-970 | prints what is open without resetting it |
| ClientBroker.Broker.Run | src/sources/cMBroker.cpp:434-444 | a whole run prints exactly the report the theorems are about |
| JitterEstimate.JitterIsWeightedSum | src/sources/cMBroker.cpp:890-895 | the recurrence is the sum of (1/16)(15/16)^(n-k) D_k |
| JitterEstimate.JitterBounded | src/sources/cMBroker.cpp:890-895 | hence between 0 and the largest difference |
| ServerStats.ServerReportAgrees | src/sources/cMBroker.cpp:678-729 | with an open output file, received slots hold exactly the packets that set a new highest number and their bytes, sent slots every reply, and the received count is slots plus duplicates plus late ones, counted from the values the connection started with |
| ServerReports.ConnReport | src/sources/cMBroker.cpp:536-604 | every record of a connection with an open file from the events alone, as on the client, but with the mean delay and jitter a million times too small and the first slot's delay on top of what the field was left with |
| ServerReports.ConnOpenSlots | src/sources/cMBroker.cpp:692-729 | at any time the open slots hold exactly what counted, and what was sent, since the last tick |
| ServerReports.SilentServerPrintsNothing | src/sources/cMBroker.cpp:542-548 | a silent server prints no slot |
| ServerStats.TotalsCountAll | src/sources/cMBroker.cpp:214-228 | the totals count every packet and byte, silent or not, slotted or not; without the filter nothing counts as late or repeated |
| ServerStats.ConnBalances | src/sources/cMBroker.cpp:536-604 | the same balance of packets and bytes at any time, open slot included |
| ServerStats.PrintedSlotsAgree | src/sources/cMBroker.cpp:263-287 | the printed slots hold what counted and what was sent if and only if the output file is open, or there was nothing |
| ServerStats.NoFileNoRecords | src/sources/cMBroker.cpp:263-287 | a connection without an open file or without slots prints no slot |
| ServerStats.EarlyOnlyCounts | src/sources/cMBroker.cpp:214-234 | packets before an invite's settings are taken over only count, packets and bytes in both directions |
| ServerStats.WholeConnection | src/sources/cMBroker.cpp:214-304 | the final counts of a connection are its early packets, its slots, and its duplicate and late packets, and its byte counts are those of all packets |
| ServerStats.ConnIsExact | src/sources/cMBroker.cpp:697-728 | a connection's counters, byte totals and jitter, from its packets alone |
| ServerConnection.Connection.ProcessPacket | src/sources/cMBroker.cpp:214-234 | counts a packet for the connection first, and filters it into its slot unless silent or without slots |
| ServerConnection.Connection.Means | src/sources/cMBroker.cpp:558-562 | computes the loss and the scaled means that a record tells of its slot |
| ServerConnection.Connection.Tick | src/sources/cMBroker.cpp:262-269 | closes the sent slot, then the received one, of a connection with an open file |
| ServerConnection.Connection.Close | src/sources/cMBroker.cpp:972-1035 | with an open file, prints what is open in both directions, and an empty sent slot when packets were received |
| ServerQueue.NeverMoreSentThanReceived | src/sources/cServer.cpp:151-172 | on every beginning of the main queue no connection has more sent than received |
| ServerQueue.QueueCountsAll | src/sources/cServer.cpp:156-172 | each handled packet is queued as received once, and as sent if and only if its reply went out |
| ServerQueue.SentNeverOvertakesReceived | src/sources/cServer.cpp:156-172 | the same at any point of any interleaving of the ring |
| ControlMessage.Connection.ProcessControlMessage | src/sources/cServer.cpp:193-361 | rewrites a control message and the connection as specified and leaves other types alone; the recursion on codes ends |
| ControlMessage.Connection.Receive | src/sources/cServer.cpp:175-184 | every message that is not a PING is handled and initialises its connection, unless its type is 8; so every control message does |
| ControlMessage.RepeatedInvite | src/sources/cServer.cpp:207-255 | a started connection echoes a repeated invite and keeps its state if and only if the clock did not step back by 10 s |
| ControlMessage.ReplyMeans | src/sources/cServer.cpp:206-357 | what each reply code says about the connection and the server's asymmetric mode |
| ControlMessage.InviteOutcome | src/sources/cServer.cpp:206-267 | on an unstarted connection an invite is accepted, redirected or refused exactly under the guards of the branches |
| ControlMessage.LatchingRepeats | src/sources/cServer.cpp:284-358 | taking settings over twice changes nothing more; the slot length changes only with the L bit; no invite switches off what only invites switch on |
| Handshake.HandshakeIsSafe | src/sources/cMBroker.cpp:325-342 | on every run over a lossy, repeating, reordering network: started implies initialised, started implies accepted or redirected, started by an accepted invite implies exactly the client's settings were latched, asymmetric as the server was when it created the connection, done implies the output close was queued |
| Handshake.LatchesWanted | src/sources/cServer.cpp:286-356 | latching an invite on a connection created in a given asymmetric mode gives the client's settings in that mode, bit by bit |
| Handshake.AsymmetryAsConfigured | src/sources/cServer.cpp:330-339 | the asymmetric setting is the one both options ask for if and only if the server has no -X, the client has it, or the last invite accepted before the connection was created had no X bit |
| Handshake.LatchedAsConfigured | src/sources/cServer.cpp:330-339 | so what an accepted invite latched is the configuration of client and server whenever the server has no -X, the client has it, or no accepted invite had the X bit |
| Handshake.NewFlowLatches | src/sources/cCBroker.cpp:72 | a new flow gets the server's mode of that moment, and its invite sets the mode for the next |
| Handshake.AsymmetryLeaks | src/sources/cServer.cpp:330-339 | with -X, an invite with the bit makes the next new flow without it not asymmetric, and that flow's invite restores the mode |
| Handshake.AsymmetryLeaksInRun | src/sources/cServer.cpp:330-339 | a run from the start that does so, for any two such clients |
| Handshake.SampleLenCut | src/sources/cClient.cpp:268-272 | the slot length arrives cut to whole milliseconds if and only if they fit 32 bits; when it arrives as 0 although set |
| Handshake.SettingsStayForRun | src/sources/cServer.cpp:207-255 | no run changes the settings of a started connection while it exists |
| Handshake.InviteLatchesExactly | src/sources/cServer.cpp:206-267 | an invite on an unstarted connection takes settings over if and only if it is accepted, and once its reply arrives the client is started on an unstarted connection if and only if it was redirected |
| HandshakeRuns.WholeTest | src/sources/cServer.cpp:193-283 | from any state with room: a client invites, is accepted and starts, n of its packets are counted, it ends the test, learns n, and its connection is closed and collected |
| HandshakeRuns.ClientKnows | src/sources/cMBroker.cpp:326-342 | on every run a client is started, done or stopped if and only if a reply that says so has reached it |
| HandshakeRuns.FinishesExactly | src/sources/cMBroker.cpp:280-308 | a connection finishes if and only if the broker handles a queued close or an invite is refused for its file |
| HandshakeRuns.OnlyFinishedAreCollected | src/sources/cCBroker.cpp:101-131 | a connection goes away if and only if it is collected after it finished |
| HandshakeRuns.ConnCounts | src/sources/cServer.cpp:269-278 | each packet is counted once; each handled end of a test queues one close, which the broker takes off |
| HandshakeRuns.UnstartedHasNoOptions | src/sources/cCBroker.cpp:36-89 | until an invite is accepted a connection has no option set and the asymmetric mode the server had when it was created |
| HandshakeRuns.RecordsAreWitnessed | src/sources/cServer.cpp:174-188 | what the safety theorem says of the server's past is about answers that the server sent |
| Handshake.ConnectionsBounded | src/sources/cCBroker.cpp:24-28 | never more than 65 connections |
| Handshake.SixtyFiveFlows | src/sources/cCBroker.cpp:26 | 65 are reached |
| Dispatch.ExactlyOneTaken | src/sources/cMBroker.cpp:156-164 | the tests take exactly one message unless both times are 0, the later of two heads, the received one on a tie |
| Dispatch.Broker.Pass | src/sources/cMBroker.cpp:145-169 | one pass processes exactly one of the heads it saw, with messages arriving between any two reads |
| Dispatch.Broker.Look | src/sources/cMBroker.cpp:145 | the guard looks at the received queue and then at the sent one, with messages arriving in between |
| Dispatch.Broker.Drain | src/sources/cMBroker.cpp:145-169 | the loop ends; each direction was processed once and in order, and nothing is left but received messages that came in between the last two looks |
| DispatchRings.DispatchIsExact | src/sources/cMBroker.cpp:145-169 | on two lock-free rings, for every interleaving of the atomic steps of both producers and the broker: no head that the broker uses is null or destroyed, it never goes around without taking a message, and in each direction it has processed exactly a beginning of what was pushed |
| DispatchProgress.NoMessageIsStuck | src/sources/cMBroker.cpp:153-175 | from every reachable state a bounded number of the broker's own steps processes all that was pushed: it neither hangs nor goes around for ever |
| DispatchProgress.LaterHeadIsTaken | src/sources/cMBroker.cpp:158-168 | the choice falls on the later of the two heads, at equal times on the received one |
| DispatchProgress.ChosenHeadIsProcessed | src/sources/cMBroker.cpp:158-173 | the message processed is the head of the chosen queue |
| DispatchProgress.HeadsAreLive | src/sources/cMBroker.cpp:147-170 | on every interleaving what front shows the broker is the living head of that queue, and a chosen queue has one |
| DispatchProgress.ProducersGetOn | src/sources/cMBroker.cpp:88-102 | a producing thread left alone with room publishes its message |
| SlotTimer.NoDrift | src/sources/cSlotTimer.cpp:57-58 | after k ticks the trigger is start plus k+1 intervals, and tick j never comes before start plus j intervals, for every polling schedule |
| SlotTimer.TicksBounded | src/sources/cSlotTimer.cpp:57-73 | never more ticks than whole intervals that have passed |
| SlotTimer.NoTickMissed | src/sources/cSlotTimer.cpp:57-73 | exactly as many when no two looks are more than an interval apart |
| SlotTimer.SlotsIndependent | src/sources/cSlotTimer.cpp:66-74 | a flow's slot has the trigger and the ticks it would have alone |
| SlotTimer.FlowTicks | src/sources/cSlotTimer.cpp:66-74 | so the ticks of each flow are never early, never more than the whole intervals, and exactly as many when looks are close |
| SlotTimer.ActiveWhenSlots | src/sources/cSlotTimer.cpp:81-102 | a running server polls if and only if slots exist |
| SlotTimer.ServerTimer.PollOnce | src/sources/cSlotTimer.cpp:65-75 | ticks exactly the due flows, once each, in ascending order |
| SlotTimer.ServerTimer.RemoveTimer | src/sources/cSlotTimer.cpp:95-102 | afterwards the flow has no slot, every other flow has the slot it had, and the loop goes on if and only if it ran and another flow has one |
| SlotTimer.ServerTimer.AddTimer | src/sources/cSlotTimer.cpp:81-93 | the flow gets a slot one interval ahead and the loop runs, all other slots stay; without an interval nothing changes |
| SlotTimer.RemovedIsGone | src/sources/cSlotTimer.cpp:95-102 | after a removal a flow has no slot and gets no tick until it is added again, whatever happens to the others |
| SlotTimer.SlotsAreLive | src/sources/cSlotTimer.cpp:81-102 | on every run exactly the flows added and not removed since have a slot, and the loop is active if and only if there is one |
| Crc16.Crc | src/sources/cClient.cpp:40-50 | the byte-wise loop is the bit-serial checksum over x^16+x^12+x^5+1 from 0xFFFF |
| Crc16.ByteIsEightBits | src/sources/cClient.cpp:45-47 | one byte step is eight bit steps |
| Crc16.AdjacentBytesDetected | src/sources/cClient.cpp:40-50 | buffers differing only within two adjacent bytes have different values |
| Crc16.BurstDetected | src/sources/cClient.cpp:40-50 | more generally any burst of at most 16 bits is detected |

## Left out

- SpscRing.Ring.Emplace: requires room, because alone on its object it would spin for ever; waiting for a concurrent consumer is in the step model.
- TrafficGenerator.Generator.RunPacketFactory: the sender's removals happen when the thread wakes up; all other interleavings are in `PacketFactory`.
- PacketSender.SendLoop: the times after waiting are inputs, so nothing is said about how precisely a probe meets its target time.
- ServerConnection.Connection.ProcessPacket: one packet size for the counters and the slot of a message; the code reads the connection's size twice, and the server thread may change it in between.
- Handshake.HandshakeIsSafe: safety only; a lost reply to an accepted invite leaves the client unstarted, since later invites are echoed.
- Weak memory: each index has one writer, so acquire and release accesses are interleaved atomic steps; padding, allocation and the clamp of the capacity near SIZE_MAX are not modelled.
- `msg_buf`, `msg_buf_hp` and `msg_buf_lp` as rings with several pushing threads; the timeout push of src/sources/cCBroker.cpp:120.
- Sockets, files, signals, sleeping, command-line parsing beyond the shape of the profile, and the profile file.
- The text of records (JSON, ping lines), including the comma and brace flags, and `ts_limit`, which nothing reads.
- Rounding of floating point: times, rates, delays and ratios are exact, and sums are not bounded by machine words except where a width is named.
- Server statistics with a record per packet, which the code keeps in the broker's own slots instead of the connection's (src/sources/cMBroker.cpp:768).
- The order of messages across the two queues by time: the loop takes the later of two heads (src/sources/cMBroker.cpp:158-168).
- The client's side of the slot timer, which is the one-slot case of the same law, and anything after `stop`: the polling loop ends and is not started again.
- Fields of a connection that the handshake does not use (addresses, return size, file handles, the anti-asymmetric flags of the setup), and `getActiveConnIDs` with the server's termination message.
