# WebRTC test-bed helpers: a fake network pipe, memoised statistics and sample scans

This project models three small pieces of WebRTC in Dafny and proves what each one promises.

- **FakeNetworkPipe** (`fake_network_pipe.dfy`, module `FakeNetwork`) is a link emulator made of two FIFO stages.
  - `SendPacket` copies the payload into a bounded *capacity queue*. When that queue is full it drops the packet instead.
  - Each accepted packet is scheduled to arrive when the packet ahead of it arrives (or now, if the queue is empty), plus `length / link_capacity_bytes_ms` milliseconds.
  - `NetworkProcess` moves due packets to an unbounded *extra-delay queue*, adding `queue_delay_ms` to each one's arrival time. It then hands the packets that are due from that queue to the receiver.
  - Counters track the packets dropped, the packets delivered and the total scheduled delay of the delivered packets. `PercentageLoss` and `AverageDelay` are ratios of those counters.
  - The class invariant `Valid` states four things. The link rate is positive. The capacity queue respects its bound and is sorted by arrival time. Read front to back, the delivered log, the extra-delay queue and the capacity queue are the accepted packets in order, those past the capacity stage due `queue_delay_ms` later than first scheduled. The counters agree with the delivered log.
- **Stats** (`bwe_test_framework.dfy`, module `BweTestFramework`) is the bandwidth-estimation test framework's sample store. It only ever appends samples. It keeps three memoised aggregates: the mean, the population variance, and min/max.
  - Each aggregate is tagged with the sample count it was computed from, and is recomputed only when the count has changed.
  - The invariant is that no tag exceeds the number of samples, and each cached value equals its aggregate recomputed over the samples its tag counts.
  - The same module holds `IsTimeSorted` and the contract every `PacketProcessor::RunFor` must meet: the packet list it leaves behind is sorted by send time. It also holds the rate counter's `bits_per_second` accessor.
- **Min/max scans** (`min_max_operations.dfy`, module `MinMaxOperations`) model the `WebRtcSpl_*` loops over `int16`/`int32` sample buffers.
  - They find the largest magnitude (saturated to the type's maximum), the largest and smallest value, and the first index at which the maximum magnitude, maximum or minimum occurs.
  - A C buffer is a nullable array plus the caller's length. A NULL buffer or a length `<= 0` yields the sentinel.

The clock is a parameter: `now` is passed to `SendPacket` and `NetworkProcess`. The packet receiver is the ghost log `delivered`.

When the capacity queue is non-empty, the code (fake_network_pipe.cc:92-95) starts a new packet at the back packet's arrival time, even when that time has already passed; it takes no max with `now`. `ScheduledArrivalMayPrecedeSendTime` and `StaleBacklogScenario` show the consequence. A packet sent behind an undrained backlog can be due before it was sent. Its recorded delay, `arrival + queue_delay_ms - send_time`, can then be negative, namely when the gap exceeds `queue_delay_ms`.

## Model

| member | source | states |
|---|---|---|
| FakeNetwork.NetworkPacket.IncrementArrivalTime | webrtc/video_engine/test/libvietest/testbed/fake_network_pipe.cc:43-45 | Delaying a packet keeps its payload and send time; its scheduled delay grows by exactly `extra_delay` |
| FakeNetwork.DueCount | webrtc/video_engine/test/libvietest/testbed/fake_network_pipe.cc:126-127 | The number of packets a drain loop takes from a queue: every packet in that prefix is due by `now`, and the next one, if any, is not |
| FakeNetwork.DueCountUnique | webrtc/video_engine/test/libvietest/testbed/fake_network_pipe.cc:126-135 | Any split of a queue into a due prefix followed by a packet that is not due is the one DueCount gives, so the loop's stopping point is determined |
| FakeNetwork.SumDelayAppend | webrtc/video_engine/test/libvietest/testbed/fake_network_pipe.cc:149 | The total scheduled delay of two runs of packets is the sum of their totals |
| FakeNetwork.SumDelayShifted | webrtc/video_engine/test/libvietest/testbed/fake_network_pipe.cc:133-149 | Delaying every packet by `d` raises the total scheduled delay by `d` per packet |
| FakeNetwork.ScheduledArrival | webrtc/video_engine/test/libvietest/testbed/fake_network_pipe.cc:86-95 | The arrival time is the start (the back packet's arrival, or `now` on an empty queue) plus the whole milliseconds the link needs for `length` bytes: `(r - start) * rate <= length < (r - start + 1) * rate` |
| FakeNetwork.ScheduledArrivalNoOvertaking | webrtc/video_engine/test/libvietest/testbed/fake_network_pipe.cc:86-95 | A newly scheduled packet is not due before any packet already in a sorted capacity queue, nor before `now` when the queue is empty |
| FakeNetwork.ScheduledArrivalMayPrecedeSendTime | webrtc/video_engine/test/libvietest/testbed/fake_network_pipe.cc:88-95 | With a stale packet at the back of the queue, the scheduled arrival lies before `now` (the code does not take a max with `now`) |
| FakeNetwork.TruncDiv | webrtc/video_engine/test/libvietest/testbed/fake_network_pipe.cc:115 | C integer division: the quotient is rounded toward zero, for either sign of the dividend |
| FakeNetwork.FakeNetworkPipe.constructor | webrtc/video_engine/test/libvietest/testbed/fake_network_pipe.cc:58-71 | Both queues are empty and all counters are 0; the link rate is `kbps / 8` bytes per ms and positive; the invariant holds |
| FakeNetwork.FakeNetworkPipe.SendPacket | webrtc/video_engine/test/libvietest/testbed/fake_network_pipe.cc:76-99 | With the capacity queue full, only the drop counter moves. Otherwise a copy of the payload joins the back of the capacity queue, stamped with `now` and its scheduled arrival. The queue bound, arrival order and invariant are preserved |
| FakeNetwork.FakeNetworkPipe.PercentageLoss | webrtc/video_engine/test/libvietest/testbed/fake_network_pipe.cc:101-108 | 0 while nothing was delivered, even after drops; otherwise the ratio `r` with `r * (sent + dropped) == dropped`, so `0 <= r < 1` |
| FakeNetwork.FakeNetworkPipe.AverageDelay | webrtc/video_engine/test/libvietest/testbed/fake_network_pipe.cc:110-116 | 0 while nothing was delivered; otherwise total delay divided by delivered count, rounded toward zero |
| FakeNetwork.FakeNetworkPipe.NetworkProcess | webrtc/video_engine/test/libvietest/testbed/fake_network_pipe.cc:118-152 | The due prefix of the capacity queue moves, in order, to the back of the extra-delay queue, each packet due `queue_delay_ms` later. Then the due prefix of that queue is delivered in order, `sent` grows by its length and the total by its scheduled delays. Both fronts are afterwards not yet due, and with both queues empty nothing changes |
| FakeNetwork.FakeNetworkPipe.MoveDuePackets | webrtc/video_engine/test/libvietest/testbed/fake_network_pipe.cc:125-135 | The capacity sweep on its own: the due prefix leaves the capacity queue and is appended, delayed, to the extra-delay queue; counters and the delivered log are unchanged |
| FakeNetwork.FakeNetworkPipe.DeliverDuePackets | webrtc/video_engine/test/libvietest/testbed/fake_network_pipe.cc:137-151 | The delivery sweep on its own: the due prefix of the extra-delay queue is appended to the delivered log; each delivery adds one to `sent` and its scheduled (not actual) delay to the total |
| FakeNetwork.Conservation | webrtc/video_engine/test/libvietest/testbed/fake_network_pipe.cc:78-151 | Every accepted packet has been delivered or is still in one of the two queues |
| FakeNetwork.DeliveredInAcceptedOrder | webrtc/video_engine/test/libvietest/testbed/fake_network_pipe.cc:25-32 | The i-th delivered packet is the i-th accepted one, with the same payload bytes and send time, due exactly `queue_delay_ms` after its capacity-stage arrival |
| FakeNetwork.TotalDelayAccounting | webrtc/video_engine/test/libvietest/testbed/fake_network_pipe.cc:146-149 | The total delay is the sum of the capacity-stage delays of the delivered packets plus `queue_delay_ms` for each of them |
| FakeNetwork.StaleBacklogScenario | webrtc/video_engine/test/libvietest/testbed/fake_network_pipe.cc:92-95 | A packet sent at 100 behind an undrained packet due at 0 is itself due at 0 |
| FakeNetwork.FullQueueDrops | webrtc/video_engine/test/libvietest/testbed/fake_network_pipe.cc:78-82 | With room for one packet, a second packet sent before any poll is dropped and the queue still holds one |
| BweTestFramework.MinOfIsSmallest | trunk/webrtc/modules/remote_bitrate_estimator/test/bwe_test_framework.h:95-100 | The running minimum of non-empty samples is one of the samples and is at most every sample |
| BweTestFramework.MaxOfIsLargest | trunk/webrtc/modules/remote_bitrate_estimator/test/bwe_test_framework.h:95-100 | The running maximum of non-empty samples is one of the samples and is at least every sample |
| BweTestFramework.SumOfSquaresNonNegative | trunk/webrtc/modules/remote_bitrate_estimator/test/bwe_test_framework.h:59-64 | The accumulated squared deviations are never negative |
| BweTestFramework.VarianceNonNegative | trunk/webrtc/modules/remote_bitrate_estimator/test/bwe_test_framework.h:55-69 | The population variance is never negative |
| BweTestFramework.SumBetweenExtremes | trunk/webrtc/modules/remote_bitrate_estimator/test/bwe_test_framework.h:49 | The sum of n samples lies between n times their minimum and n times their maximum |
| BweTestFramework.MeanBetweenExtremes | trunk/webrtc/modules/remote_bitrate_estimator/test/bwe_test_framework.h:46-54 | The mean of non-empty samples lies between their minimum and maximum |
| BweTestFramework.FiveSamples | trunk/webrtc/modules/remote_bitrate_estimator/test/bwe_test_framework.h:46-102 | For samples 1..5: mean 3, population variance 2, minimum 1, maximum 5 |
| BweTestFramework.Stats.constructor | trunk/webrtc/modules/remote_bitrate_estimator/test/bwe_test_framework.h:31-40 | No samples, all tags 0, all cached values 0; the cache invariant holds |
| BweTestFramework.Stats.Push | trunk/webrtc/modules/remote_bitrate_estimator/test/bwe_test_framework.h:42-44 | The sample is appended at the end; every cache and tag is unchanged and the invariant still holds |
| BweTestFramework.Stats.GetMean | trunk/webrtc/modules/remote_bitrate_estimator/test/bwe_test_framework.h:46-54 | Returns the mean of all samples and tags the cache with their count; with the tag already current the cached value is returned unchanged; the other caches are untouched |
| BweTestFramework.Stats.GetVariance | trunk/webrtc/modules/remote_bitrate_estimator/test/bwe_test_framework.h:55-69 | Returns the population variance of all samples; a recomputation also brings the mean cache up to date; with the tag already current nothing changes; min/max are untouched |
| BweTestFramework.Stats.SquaredDeviations | trunk/webrtc/modules/remote_bitrate_estimator/test/bwe_test_framework.h:59-64 | The loop's accumulator ends as the sum of the squared deviations from the mean, which is non-negative |
| BweTestFramework.Stats.GetMin | trunk/webrtc/modules/remote_bitrate_estimator/test/bwe_test_framework.h:73-76 | Returns the minimum of all samples (0 with none) and brings the min/max cache up to date |
| BweTestFramework.Stats.GetMax | trunk/webrtc/modules/remote_bitrate_estimator/test/bwe_test_framework.h:77-80 | Returns the maximum of all samples (0 with none) and brings the min/max cache up to date |
| BweTestFramework.Stats.RefreshMinMax | trunk/webrtc/modules/remote_bitrate_estimator/test/bwe_test_framework.h:88-102 | After the call the min/max tag equals the sample count and min/max are the samples' minimum and maximum; nothing is recomputed when the tag is current; the other caches are untouched |
| BweTestFramework.FreshStatsReportZero | trunk/webrtc/modules/remote_bitrate_estimator/test/bwe_test_framework.h:31-80 | A freshly constructed store reports 0 for mean, variance, minimum and maximum |
| BweTestFramework.IsTimeSorted | trunk/webrtc/modules/remote_bitrate_estimator/test/bwe_test_framework.h:158 | Send times never decrease from one packet to the next, the order the comment at lines 175-178 asks of every RunFor output |
| BweTestFramework.TimeSortedUpTo | trunk/webrtc/modules/remote_bitrate_estimator/test/bwe_test_framework.h:158 | In a time-sorted list, an earlier packet's send time is at most a later packet's |
| BweTestFramework.TimeSortedIffPairwise | trunk/webrtc/modules/remote_bitrate_estimator/test/bwe_test_framework.h:158 | Sorted neighbour by neighbour if and only if sorted between every two packets |
| BweTestFramework.ChainLeavesTimeSorted | trunk/webrtc/modules/remote_bitrate_estimator/test/bwe_test_framework.h:172-178 | The list a non-empty chain of stages leaves behind is sorted by send time as soon as its last stage meets the RunFor contract, whatever the earlier stages did |
| BweTestFramework.BitsPerSecond | trunk/webrtc/modules/remote_bitrate_estimator/test/bwe_test_framework.h:192 | Bytes per second times 8 in unsigned 32-bit arithmetic: congruent to the true product modulo 2^32, which within the `uint32` range fixes the value; exact below 2^29 bytes/s, smaller than the true product from there on, always a multiple of 8 |
| MinMaxOperations.MaxAbsValueW16 | src/common_audio/signal_processing/min_max_operations.c:37-58 | -1 on NULL or length <= 0; otherwise `min(max_i abs(v[i]), 32767)`: some sample's saturated magnitude, at least every sample's, within [0, 32767] |
| MinMaxOperations.MaxAbsValueW32 | src/common_audio/signal_processing/min_max_operations.c:61-82 | -1 on NULL or length <= 0; otherwise `min(max_i abs(v[i]), 2^31 - 1)`, with the same three properties |
| MinMaxOperations.MaxValueW16 | src/common_audio/signal_processing/min_max_operations.c:86-99 | WORD16_MIN on NULL or length <= 0; otherwise a sample that is at least every sample |
| MinMaxOperations.MaxValueW32 | src/common_audio/signal_processing/min_max_operations.c:102-115 | WORD32_MIN on NULL or length <= 0; otherwise a sample that is at least every sample |
| MinMaxOperations.MinValueW16 | src/common_audio/signal_processing/min_max_operations.c:122-135 | WORD16_MAX on NULL or length <= 0; otherwise a sample that is at most every sample |
| MinMaxOperations.MinValueW32 | src/common_audio/signal_processing/min_max_operations.c:138-151 | WORD32_MAX on NULL or length <= 0; otherwise a sample that is at most every sample |
| MinMaxOperations.MaxAbsIndexW16 | src/common_audio/signal_processing/min_max_operations.c:156-175 | -1 on NULL or length <= 0; otherwise the first index in [0, length) whose unsaturated magnitude is largest |
| MinMaxOperations.MaxIndexW16 | src/common_audio/signal_processing/min_max_operations.c:178-194 | -1 on NULL or length <= 0; otherwise the first index in [0, length) holding the maximum |
| MinMaxOperations.MaxIndexW32 | src/common_audio/signal_processing/min_max_operations.c:197-213 | -1 on NULL or length <= 0; otherwise the first index in [0, length) holding the maximum |
| MinMaxOperations.MinIndexW16 | src/common_audio/signal_processing/min_max_operations.c:217-233 | -1 on NULL or length <= 0; otherwise the first index in [0, length) holding the minimum |
| MinMaxOperations.MinIndexW32 | src/common_audio/signal_processing/min_max_operations.c:236-252 | -1 on NULL or length <= 0; otherwise the first index in [0, length) holding the minimum |
| MinMaxOperations.SaturatedMaxAbsValue | src/common_audio/signal_processing/min_max_operations.c:51-57 | The magnitude of -32768 is reported as 32767 |
| MinMaxOperations.UnsaturatedMaxAbsIndex | src/common_audio/signal_processing/min_max_operations.c:157-172 | The index scan does not saturate: -32768 outranks an earlier 32767 |

## Left out

- Locking (`CriticalSectionScoped` on `link_cs_`): the pipe is modelled single-threaded.
- The millisecond clock: `now` is a parameter of `SendPacket` and `NetworkProcess`. In `SendPacket` the code reads the clock only after the drop test, which makes no observable difference.
- `PacketReceiver::IncomingPacket`: the receiver is not part of this model. Deliveries are recorded in the ghost log `delivered`.
- Payload ownership: payloads are byte sequences copied by value. Freeing them is not modelled, because the code never releases a packet's buffer (`ReleaseData` is never called) and deletes only the wrapper.
- `NetworkPacket` is a value. `IncrementArrivalTime` returns the delayed packet instead of updating it in place. No packet is reachable from two places, so aliasing is not observable.
- `loss_percent` is stored but never used, so the pipe has no random loss.
- FakeNetwork.FakeNetworkPipe.constructor: requires `link_capacity_kbps >= 8`. This states as a precondition what the code checks with `assert(link_capacity_bytes_ms_ > 0)`: a smaller rate would make `SendPacket` divide by zero.
- Integer widths in the pipe: `int64_t` times and delays, `int` lengths and the `int` return of `AverageDelay` are unbounded integers. Overflow is not modelled. A payload length cannot be negative.
- FakeNetwork.FakeNetworkPipe.PercentageLoss: states the exact real ratio. The single-precision `float` rounding of the code is not modelled.
- `kNetworkProcessMaxWaitTime` is declared but none of the modelled functions uses it.
- Stats is modelled with `T = real` for every aggregate: exact arithmetic stands in for `double`. An integer instantiation (truncating division of the mean and variance) is not modelled.
- Stats: the code's early return for empty data in `RefreshMinMax` is not modelled. It is reachable only when the min/max tag differs from a sample count of 0, which the invariant excludes, so it never runs.
- `Stats::GetStdDev` (a floating-point square root) and `Stats::Log` (logging) are not modelled.
- The `Random` generator, the packet filters, the `Packet` constructors and `operator<`, `VideoSender`, and the body of `RateCounterFilter::RunFor` are not part of this model: their bodies are in bwe_test_framework.cc, which this model does not cover. `RunFor` is modelled only through its sortedness contract, as a function from the time slice and the packet list to the resulting list.
- BweTestFramework.IsTimeSorted: its body is in bwe_test_framework.cc, which this model does not cover. The definition (send times non-decreasing between neighbours) follows the function's name and the sortedness requirement stated for `RunFor` at bwe_test_framework.h:175-177.
- BweTestFramework.RunChain stands for a driver that runs processors one after another on the same time slice. No such driver is part of this model; it serves only to state what the RunFor contract gives a sequence of stages.
- `PacketSender::GetCapacityKbps` (0) and `GetFeedbackIntervalMs` (1000) are recorded as the constants `DEFAULT_CAPACITY_KBPS` and `DEFAULT_FEEDBACK_INTERVAL_MS`. Nothing in the model uses them, and no property is stated about them. `packets_per_second` and `payload_size` are plain field reads.
- MinMaxOperations.MaxAbsValueW32: uses the mathematical magnitude of `INT32_MIN` (2^31, then clamped to 2^31 - 1) where C's `abs` is undefined.
- The NEON and XSCALE build variants of the scans are not part of this model.
