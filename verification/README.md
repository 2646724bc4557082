# eggchaos, modelled and proved in Dafny

eggchaos injects faults into byte streams and datagrams, deterministically and live. This project
models its four stateful cores and proves what they promise, for every input, every interleaving and
every outcome of the random streams.

* **Stream direction engine** (`StreamPlan`, `StreamEngine`, `StreamLoss`, `StreamProofs`,
  `StreamRuns`, `StreamCompile`, `StreamPacing`, `StreamDelays`, `StreamTerminations`, `DirectionEngine`). A bounded FIFO that composes
  latency, slicing, bandwidth, byte limits, blackholes, disconnects and correlated stream loss, driven by
  callers that fragment writes as they like and a writer that takes what it likes.
* **Live streams** (`ChaosStreamSpec`, `ChaosStreamPlans`, `ChaosStream`). A stream that swaps its engine whenever a
  new policy generation appears, behind a drain barrier.
* **Datagram engine** (`Corruption`, `DatagramPlan`, `DatagramBucket`, `Datagram`, `DatagramProofs`,
  `DatagramRefinement`, `DatagramConformance`, `DatagramLineage`, `DatagramTiming`, `DatagramEvidence`,
  `DatagramEngine`). Staged admission into a deadline-ordered queue, with immediate paths that must not be observable.
* **Policies, schedules and the driver** (`LivePolicy`, `Schedule`, `Compiler`, `PolicyTarget`,
  `DriverProofs`, `Driver`, `DriverResults`). A compare-and-swap publisher, the Scenario V2 compiler, and the driver
  that plays a compiled tape against a target shared with other publishers.

Wherever the original updates fields in place, a class does too. Each of its methods is tied to a function
on values (`Value() == F(old(Value()), ...)`), and the theorems are about these functions and about
runs of them. A run carries its history: accepted and forwarded bytes, emitted datagrams, or the log of
publications. Methods that build their own object (`Relay`, `Session`, `ServeStream`, `Execute`,
`RunSchedule`) carry the theorems over to code that runs from a fresh state.

Automatic induction is switched off for every lemma, so each proof is the one written in its body.

The environment is a parameter throughout. Time is a natural number of nanoseconds read from the
caller. A random stream is a state and an arbitrary step function; seed derivations are arbitrary
functions. The inner writer is a script of replies. Other publishers are a script of publications that
happen between any two calls, or steps of an interleaved state machine. An octet is its eight bits.

Three promises hold under exact conditions, each with its failing inputs. Corruption is sure to change a
payload if and only if the number of flipped bytes is odd (`CorruptionVisibleIffOdd`). Bytes accepted for the
writer go missing across live transitions if and only if some transition's drain fails (`Barrier`), and
`BarrierCanFail` shows such a run from any stream opened on a fitting plan. After a strict run a resource is
still as the run last published it, restored or folded, if and only if nobody else published there since
(`StrictRun`, `LeftAtFold`); `LaterEdit` and `FoldCanBeOverwritten` show how it is lost.

## Model

| member | source | states |
|---|---|---|
| `Corruption.CorruptPayload` | crates/eggchaos-core/src/datagram.rs:512-526 | The in-place loop: the output is a permutation of the payload in which exactly the first min(count, length) positions have one bit flipped each |
| `Corruption.CorruptShape` | crates/eggchaos-core/src/datagram.rs:512-526 | For every payload and every draw, some permutation of the input differs from the output in one bit at each selected position and nowhere else |
| `Corruption.CorruptParity` | crates/eggchaos-core/src/datagram.rs:512-526 | The number of one bits changes parity exactly when the number of flips is odd |
| `Corruption.OddFlipsChangePayload` | crates/eggchaos-core/src/datagram.rs:512-526 | An odd number of flips always changes the payload |
| `Corruption.EvenFlipsMayRestore` | crates/eggchaos-core/src/datagram.rs:512-526 | For every even number of flips and every payload length that allows it, a payload and a random stream for which the output equals the input |
| `Corruption.CorruptionVisibleIffOdd` | crates/eggchaos-core/src/datagram.rs:512-526 | For every length, n flips change every payload under every random stream if and only if n is odd |
| `DatagramPlan.Validate` | crates/eggchaos-core/src/datagram.rs:140-182 | The pass with its running product accepts exactly the valid plans: bounded stages, good and distinct ids, probabilities and kinds in range, amplification at most 4096 |
| `DatagramPlan.CheckKind` | crates/eggchaos-core/src/datagram.rs:156-180 | Kind checks with the running candidate product, both directions |
| `DatagramPlan.AmplificationGrows` | crates/eggchaos-core/src/datagram.rs:140-182 | No prefix of a plan amplifies more than the plan, so rejecting on a prefix never rejects a good plan |
| `DatagramBucket.Charge` | crates/eggchaos-core/src/datagram.rs:693-732 | After a charge the bucket's clock is the release time handed out and never earlier than before, at most the burst is left, and nothing is left after a wait |
| `DatagramBucket.ChargeBound` | crates/eggchaos-core/src/datagram.rs:693-732 | One charge never spends more than it earned at the configured rate, despite floor refills, ceiling waits and the 64-bit clamp |
| `DatagramBucket.VolumeBound` | crates/eggchaos-core/src/datagram.rs:693-732 | Release times never decrease, and spent plus left tokens over any window are bounded by burst and rate |
| `DatagramBucket.BandwidthConformance` | crates/eggchaos-core/src/datagram.rs:693-732 | For every i <= j, the bytes of datagrams i..j are at most max(burst, size of i) plus rate times the time between their releases |
| `DatagramBucket.ChargeTight` | crates/eggchaos-core/src/datagram.rs:693-732 | A charge waits no longer than it must: the bucket holds all the rate has earned in whole bytes, up to the burst; if that pays, the charge waits for earlier releases only, and otherwise exactly until the rate has earned the rest, leaving nothing |
| `DatagramProofs.BoundedDuplication` | crates/eggchaos-core/src/datagram.rs:463-563 | One admission hands out at most the plan's amplification, at most 4096, copy numbers, never saturates the 16-bit counter, and its candidates are distinct and accounted for |
| `DatagramProofs.AdmitShape` | crates/eggchaos-core/src/datagram.rs:420-608 | What admission does to ordinal, queue and counters on each of its paths, in terms of the surviving candidates |
| `DatagramProofs.EnqueueAllKeeps` | crates/eggchaos-core/src/datagram.rs:589-608 | Enqueueing candidates keeps the queue ordered and within both limits, and counts every one as queued or overflowed |
| `DatagramProofs.ReadyKeeps` | crates/eggchaos-core/src/datagram.rs:736-758 | Draining keeps order, bounds and conservation, and splits the queued identities into those emitted and those left |
| `DatagramProofs.ReadyTakesDue` | crates/eggchaos-core/src/datagram.rs:736-758 | Draining emits exactly the candidates whose release has come, in scheduling order: none leaves early, none that is due stays |
| `DatagramProofs.ReceiveKeeps` | crates/eggchaos-core/src/datagram.rs:420-608 | Any admission under any validated plan keeps conservation, bounds and unique identities |
| `DatagramProofs.DrainKeeps` | crates/eggchaos-core/src/datagram.rs:736-758 | Any drain keeps conservation, bounds and unique identities |
| `DatagramProofs.RunKeeps` | crates/eggchaos-core/src/datagram.rs:420-758 | The same over every run of admissions and drains |
| `DatagramProofs.EngineRuns` | crates/eggchaos-core/src/datagram.rs:420-758 | From a fresh engine: admitted + duplicated = emitted + loss + overflow + oversize + queued, queued counters equal the queue, high-water marks within limits, and all (ordinal, copy) keys ever emitted or queued are distinct |
| `DatagramProofs.EngineDrains` | fuzz/fuzz_targets/datagram_transitions.rs:35-50 | After any run, draining at the next deadline until none is left empties the queue, and then emitted + loss + overflow + oversize = admitted + duplicated |
| `DatagramConformance.RunCharged` | crates/eggchaos-core/src/datagram.rs:527-541 | Over every run whose policies keep a bandwidth fault at one rate and burst, the fault's bucket is the one that served exactly the run's charges |
| `DatagramConformance.ApplyCharged` | crates/eggchaos-core/src/datagram.rs:527-541 | A charged candidate is held until the release time of its charge |
| `DatagramConformance.EngineConforms` | crates/eggchaos-core/src/datagram.rs:463-732 | From a fresh engine, every window of those charges meets the bandwidth bound |
| `DatagramLineage.ApplyOutcome` | crates/eggchaos-core/src/datagram.rs:480-560 | One stage on one candidate: it appends exactly the candidate, nothing (a struck loss) or the candidate and its copies, with copy number, payload and delay changed only as the kind allows (a delay within its jitter, a reordering by exactly its hold), and counts exactly that, the added delay under its own counter |
| `DatagramTiming.DelayBounds` | crates/eggchaos-core/src/datagram.rs:527-552 | The delay of a candidate is the sum of what the stages that struck it add, each within its jitter, plus its waits for bandwidth; without jitter it is exact |
| `DatagramTiming.EngineTimely` | crates/eggchaos-core/src/datagram.rs:420-758 | Over every run from a fresh engine, every queued or emitted datagram was made of an arrival of the run by the stages of the policy it arrived under, is due at arrival plus accumulated delay, and leaves no earlier |
| `DatagramTiming.MadeMeans` | crates/eggchaos-core/src/datagram.rs:463-608 | Such a candidate is due within the bounds of the delays and holds that struck it, no sooner than the certain ones add, was struck by no loss, and is due no sooner than the watched bandwidth fault releases its charge |
| `DatagramTiming.NothingEarly` | crates/eggchaos-core/src/datagram.rs:564-758 | So no datagram ever leaves before its arrival plus its delays |
| `DatagramTiming.LeavingConforms` | crates/eggchaos-core/src/datagram.rs:693-758 | A charged datagram leaves only after the release of its charge m, when for every earlier charge i the bytes of i..m are at most one allowance plus what the rate earned since the release of i |
| `DatagramTiming.LateDrainBunches` | crates/eggchaos-core/src/datagram.rs:736-758 | Between moments of leaving there is no such bound: three one-byte datagrams throttled to a byte a second, drained after five seconds, leave with the last two at once |
| `DatagramTiming.DrainOrder` | crates/eggchaos-core/src/datagram.rs:734-758 | In every reachable state a drain hands out exactly the due candidates: earlier releases first, then earlier arrivals, then lower copy numbers |
| `DatagramTiming.OverflowExact` | crates/eggchaos-core/src/datagram.rs:589-608 | Candidates are dropped only for want of room, each counted as overflow; the answer says whether one was queued; with room for all, each is queued |
| `DatagramTiming.LossFaultsOnly` | crates/eggchaos-core/src/datagram.rs:493-496 | Without a loss fault the datagram and all its copies survive the stages and nothing is counted lost; with a certain one nothing survives and everything is |
| `DatagramTiming.VanishedForgotten` | crates/eggchaos-core/src/datagram.rs:437-450 | The bucket of a fault that left the plan is forgotten at the first admission under a new generation, and kept within a generation |
| `DatagramEvidence.AdmitCounts` | crates/eggchaos-core/src/datagram.rs:426-438 | Admission counts the arrival and exactly what it hands over, and notes generation and namespace unless the datagram is oversize |
| `DatagramEvidence.RunLogged` | crates/eggchaos-core/src/datagram.rs:420-758 | Over every run the admitted counters are the arrivals and their bytes, and the emitted counters what was handed to the transport |
| `DatagramRefinement.EmitMatchesQueue` | crates/eggchaos-core/src/datagram.rs:564-588 | Immediate emission of several candidates hands over what enqueueing all and draining them, then or at any later time, would, in the same order |
| `DatagramRefinement.ImmediateRefinesQueue` | crates/eggchaos-core/src/datagram.rs:451-462 | Over every run that drains after each admission, at any later reading of the clock, with any timer drains in between, the engine with immediate paths emits the same datagrams in the same order as one that always enqueues, with equal queues and counters; high-water marks may only be lower, and are equal without duplication |
| `DatagramRefinement.ArriveAgrees` | crates/eggchaos-core/src/datagram.rs:564-608 | The same for one arrival and the drain after it, on every path of admission |
| `DatagramEngine.DatagramDirectionEngine.Admit` | crates/eggchaos-core/src/datagram.rs:420-608 | The whole new state and the answer are those of the specified admission, whose candidates and release times `EngineTimely` and `MadeMeans` describe |
| `DatagramEngine.DatagramDirectionEngine.ApplyStage` | crates/eggchaos-core/src/datagram.rs:463-563 | One fault stage over one candidate: loss, duplication, corruption, delay, reorder hold, bandwidth |
| `DatagramEngine.DatagramDirectionEngine.RunStages` | crates/eggchaos-core/src/datagram.rs:463-563 | The nested stage loop computes the specified pipeline |
| `DatagramEngine.DatagramDirectionEngine.EmitImmediate` | crates/eggchaos-core/src/datagram.rs:648-691 | Immediate emission moves all counters as queue-then-drain does |
| `DatagramEngine.DatagramDirectionEngine.Enqueue` | crates/eggchaos-core/src/datagram.rs:623-644 | Insertion by (release, ordinal, copy) with counters and high-water marks |
| `DatagramEngine.DatagramDirectionEngine.BandwidthDelay` | crates/eggchaos-core/src/datagram.rs:693-732 | Charges the fault's own bucket and answers the added delay |
| `DatagramEngine.DatagramDirectionEngine.TakeReady` | crates/eggchaos-core/src/datagram.rs:736-758 | The pop loop returns and removes exactly the due candidates of the ordered queue, in order |
| `DatagramEngine.ServeStream` | crates/eggchaos-server/src/runtime/datagram/association.rs:741-803 | A loop that admits arrivals, sends what is immediate, and drains at fresh clock readings and on timers sends what a reference that always enqueues would have sent |
| `StreamCompile.CompiledMerges` | crates/eggchaos-core/src/engine.rs:458-556 | A compiled connection has the earliest active disconnect (hard reset on ties), an endless blackhole over any finite one and else the earliest, the smallest buffer, the slowest bandwidth, and a slicer exactly if one is active |
| `StreamCompile.ActiveMeansDrawn` | crates/eggchaos-core/src/engine.rs:467-475 | Fault i is active exactly if its own activation stream drew so, and keeps one random stream |
| `StreamRuns.CompileKeeps` | crates/eggchaos-core/src/engine.rs:467-572 | The fold keeps one random stream per fault, loss state exactly for active loss faults, and the smallest active byte limit |
| `StreamRuns.FreshKeeps` | crates/eggchaos-core/src/engine.rs:448-615 | A freshly compiled engine satisfies every invariant below, whatever termination it inherits |
| `StreamLoss.DecideCorrect` | crates/eggchaos-core/src/engine.rs:949-993 | From any intermediate state, the decision on a chunk is the pure union of the faults' own walks: the first draw at the loss rate, each later one at the loss rate after a kept chunk and at loss rate plus correlation, at most one, after a dropped one |
| `StreamLoss.CertainWalk` | crates/eggchaos-core/src/engine.rs:973-980 | A fault of rate zero never drops, whatever its correlation, and a fault of rate one drops every chunk |
| `StreamLoss.FullCorrelationLasts` | crates/eggchaos-core/src/engine.rs:973-980 | When loss rate and correlation reach one together, a dropped chunk is followed by dropped chunks only |
| `StreamLoss.ZeroRatesKeepAll` | crates/eggchaos-core/src/engine.rs:949-993 | With zero-rate faults only, the survivors are the stream itself |
| `StreamLoss.FullRateDropsAll` | crates/eggchaos-core/src/engine.rs:949-993 | With an active fault of rate one nothing survives |
| `StreamLoss.SurvivorsConcat` | crates/eggchaos-core/src/engine.rs:1104-1215 | Filtering a stream by chunk decisions is independent of where the stream is cut |
| `StreamProofs.PushRunEffect` | crates/eggchaos-core/src/engine.rs:1007-1090 | A run that fits the bounded queue is queued whole and in order, whatever the slicers draw |
| `StreamProofs.ClassifyEffect` | crates/eggchaos-core/src/engine.rs:1104-1215 | Classification takes an exact prefix, queues exactly its survivors, counts every chunk once, and stops short only at a full queue |
| `StreamProofs.AcceptKeeps` | crates/eggchaos-core/src/engine.rs:1234-1449 | Acceptance owns an exact prefix and keeps order, conservation, the buffer bound, remaining + accepted = smallest limit, and termination on exhaustion; it refuses non-empty input only if the limit is exhausted or the queue exactly full |
| `StreamRuns.DrainOnceKeeps` | crates/eggchaos-core/src/engine.rs:1500-1544 | One drain round moves the next bytes of the queue to the wire, never before their release, whatever timer an earlier head left armed |
| `StreamRuns.TimerKeeps` | crates/eggchaos-core/src/engine.rs:207-233 | A cached timer's fire time stays the deadline it is keyed by, so it is never due early |
| `StreamRuns.DrainKeeps` | crates/eggchaos-core/src/engine.rs:1500-1544 | Draining against any writer keeps every invariant, writes nothing early, and reports drained exactly when the queue is empty |
| `StreamRuns.RunKeeps` | crates/eggchaos-core/src/engine.rs:1007-1544 | FIFO conservation, exact loss, exact limit and bounded buffer in every reachable state |
| `StreamRuns.FragmentationIndependence` | crates/eggchaos-core/src/engine.rs:949-1215 | For any two runs cut, refused, resubmitted and drained in any way, forwarded plus queued bytes are the filter of the accepted stream by the pure chunk decision; equal streams deliver equal bytes, prefixes deliver prefixes |
| `StreamRuns.PrefixSuffices` | crates/eggchaos-core/src/engine.rs:665-744 | In every reachable state of a preserving plan, accepting the bounded prefix gives the same count and the same engine as accepting everything |
| `StreamPacing.SlicesStaggered` | crates/eggchaos-core/src/engine.rs:1061-1087 | With a positive slice delay, the releases of any two segments of a run are at least the largest active delay apart, across all calls and drains |
| `StreamPacing.SliceDelayLargest` | crates/eggchaos-core/src/engine.rs:1053-1056 | The gap is at least every active slicer's delay, and is one of them |
| `StreamPacing.FreshSlicesStaggered` | crates/eggchaos-core/src/engine.rs:1061-1087 | On a freshly compiled connection, whenever slicer i drew active, any two segments ever queued are released at least its delay apart |
| `StreamPacing.DelayStagesEffect` | crates/eggchaos-core/src/engine.rs:1022-1060 | The active latencies put a segment's release between the sums of their least and of their most, never back, and count the injected milliseconds accordingly |
| `StreamPacing.ExactLatency` | crates/eggchaos-core/src/engine.rs:1030-1045 | Without jitter the two sums agree, so the release is exact |
| `StreamPacing.RefillMeans` | crates/eggchaos-core/src/engine.rs:266-275 | A refill credits exactly what the rate has earned, up to the capacity |
| `StreamPacing.ConsumeMeans` | crates/eggchaos-core/src/engine.rs:281-309 | A segment the bucket can pay is not held; another is held exactly until the rate has earned what is missing, and empties the bucket |
| `StreamDelays.SliceBounds` | crates/eggchaos-core/src/engine.rs:916-941 | The next segment is the whole rest, or a slice within the sizes of the active slicers |
| `StreamDelays.SegmentMeans` | crates/eggchaos-core/src/engine.rs:1020-1090 | One segment is queued last and counted once; its release is the latest of latency, bandwidth wait and, if staggered, the slice cursor, which moves on by the slice delay; the bucket pays for it |
| `StreamDelays.NothingEarly` | crates/eggchaos-core/src/engine.rs:1022-1087 | Over every run, every write comes at least the active latencies after the acceptance of its bytes; without bandwidth and slice delays every release is also within their most |
| `StreamDelays.FreshNothingEarly` | crates/eggchaos-core/src/engine.rs:1500-1544 | The same from every freshly compiled connection |
| `StreamRuns.AbsorbKeeps` | crates/eggchaos-core/src/engine.rs:768-814 | A fresh engine that absorbs its predecessor's counters keeps every invariant, with the predecessor's leftover bytes accounted as abandoned |
| `StreamTerminations.RefreshMeans` | crates/eggchaos-core/src/engine.rs:858-902 | A direction is terminated exactly if a disconnect or the close of a finite blackhole is due, the disconnect first, by its own fault, and an earlier termination stays |
| `StreamTerminations.WhyTerminated` | crates/eggchaos-core/src/engine.rs:1234-1449 | An acceptance terminates a live direction exactly if one of these is due or its byte limit is now exhausted |
| `StreamTerminations.DisconnectMeans` | crates/eggchaos-core/src/engine.rs:858-880 | A disconnect is due exactly if some active disconnect fault's time has come |
| `StreamTerminations.DiscardingMeans` | crates/eggchaos-core/src/engine.rs:904-912 | A direction discards exactly while some active blackhole never closes, or one is active and none has reached its close |
| `StreamTerminations.BlackholeSwallows` | crates/eggchaos-core/src/engine.rs:1266-1307 | While discarding, everything within the byte limit is accepted, counted as discarded, and never queued |
| `DirectionEngines.Compile` | crates/eggchaos-core/src/engine.rs:467-572 | The loop over the plan computes the specified compilation |
| `DirectionEngines.TerminationHandle.Publish` | crates/eggchaos-core/src/engine.rs:89-102 | The first published request wins |
| `DirectionEngines.DirectionEngine.RefreshTerminations` | crates/eggchaos-core/src/engine.rs:858-902 | Publishes a due disconnect, or else the close of a finite blackhole |
| `DirectionEngines.DirectionEngine.NextSliceSize` | crates/eggchaos-core/src/engine.rs:916-941 | The smallest draw of the active slicers, between one and what remains |
| `DirectionEngines.DirectionEngine.PushPreserveRun` | crates/eggchaos-core/src/engine.rs:1007-1102 | The segment loop computes the specified queue, counters and owned count; the releases it queues are those `DelayStagesEffect`, `ConsumeMeans` and `NothingEarly` bound |
| `DirectionEngines.DirectionEngine.DecideStreamLossChunk` | crates/eggchaos-core/src/engine.rs:949-993 | The loop over loss faults computes the decision that `DecideCorrect` ties to the rates, and advances each fault's own stream |
| `DirectionEngines.DirectionEngine.AcceptWithStreamLoss` | crates/eggchaos-core/src/engine.rs:1104-1215 | Chunk-wise classification, accounting and limit charging as specified |
| `DirectionEngines.DirectionEngine.Accept` | crates/eggchaos-core/src/engine.rs:1234-1449 | The whole engine and its history move as specified, and every invariant is kept |
| `DirectionEngines.DirectionEngine.AcceptVectored` | crates/eggchaos-core/src/engine.rs:705-744 | Returns the same count and leaves the same engine as accepting the concatenation |
| `DirectionEngines.CopyPrefix` | crates/eggchaos-core/src/engine.rs:731-743 | The copy loop yields exactly the wanted prefix of the concatenated slices |
| `DirectionEngines.DirectionEngine.PollQueue` | crates/eggchaos-core/src/engine.rs:1500-1544 | Drains as specified and keeps every invariant with the forwarded bytes recorded |
| `DirectionEngines.DirectionEngine.AbsorbEvidence` | crates/eggchaos-core/src/engine.rs:768-814 | Counters add up and the high-water mark takes the maximum |
| `DirectionEngines.Relay` | crates/eggchaos-core/src/engine.rs:949-1544 | A relay that offers fragments of any size and drains in between ends with wire plus queue equal to the surviving bytes of exactly the prefix taken |
| `ChaosStreamSpec.FlushKeeps` | crates/eggchaos-core/src/engine.rs:1547-1556 | A flush keeps the stream's history in order; a completed one leaves nothing queued |
| `ChaosStreamSpec.AcceptKeepsView` | crates/eggchaos-core/src/stream.rs:553-565 | Bytes accepted through the engine are owed after everything accepted before |
| `ChaosStreamSpec.DirectKeeps` | crates/eggchaos-core/src/stream.rs:536-545 | The direct path never overtakes queued bytes, and counts what it moved |
| `ChaosStreamSpec.SwapKeeps` | crates/eggchaos-core/src/stream.rs:691-716 | Replacing the engine keeps counters monotone, conservation and a published termination; with an empty queue nothing owed is lost |
| `ChaosStreamSpec.UpdateKeeps` | crates/eggchaos-core/src/stream.rs:674-717 | A transition keeps every invariant and abandons bytes exactly when its drain hits a write error |
| `ChaosStreamSpec.StepKeeps` | crates/eggchaos-core/src/stream.rs:479-597 | Every write, flush, shutdown and read poll keeps order across generations, conservation and monotone evidence |
| `ChaosStreamSpec.PumpKeeps` | crates/eggchaos-core/src/stream.rs:484-515 | Pumping the write queue on a read keeps all of it, without observing the policy |
| `ChaosStreamSpec.BarrierOrder` | crates/eggchaos-core/src/stream.rs:685-693 | In every reachable state, failed transitions or not: once a byte of a generation is on the wire, every byte still owed or sent under an earlier generation precedes it |
| `ChaosStreamSpec.Barrier` | crates/eggchaos-core/src/stream.rs:523-717 | From opening, over every run: unless some transition's drain fails, everything ever preserved is on the wire or queued, in order, and no byte precedes one preserved under an earlier generation; bytes are missing if and only if one fails |
| `ChaosStreamSpec.HealthyLosesNothing` | crates/eggchaos-core/src/stream.rs:685-709 | While the writer never reports a write error (nor takes nothing, nor more than offered) in a drain before a transition, nothing accepted for it is lost or reordered: accepted = sent + discarded + buffered |
| `ChaosStreamSpec.FailureAbandons` | crates/eggchaos-core/src/stream.rs:691-709 | With anything queued, a newer policy and a writer that fails when the head is due make the transition give it up |
| `ChaosStreamSpec.BarrierCanFail` | crates/eggchaos-core/src/stream.rs:691-709 | Such a run exists from opening: a byte is accepted, then lost |
| `ChaosStreamSpec.Conservation` | crates/eggchaos-core/src/stream.rs:229-274 | Accepted = received by the writer + discarded + buffered + abandoned, across all transitions |
| `ChaosStreamSpec.LiveTransitions` | crates/eggchaos-core/src/stream.rs:523-717 | Over every run of polls, against every writer and publisher: counters, mirrored evidence and generations never go back, a published termination survives every swap, and bytes are abandoned if and only if some transition's drain fails |
| `ChaosStreamPlans.PlanInForce` | crates/eggchaos-core/src/stream.rs:674-717 | Over every run from opening, the engine in force was compiled from the plan, with the seeds of the namespace, of the snapshot that carries the reported generation (the opening one or one loaded by a poll) and has been run since |
| `ChaosStreamPlans.UpdateAdopts` | crates/eggchaos-core/src/stream.rs:674-717 | After a transition the plan in force is that of the loaded snapshot, one more transition is counted and none is pending; while draining it is the old one, with the new generation pending |
| `ChaosStreamPlans.StepAdopts` | crates/eggchaos-core/src/stream.rs:523-597 | Whatever a poll answers other than pending, it answers under the plan of the snapshot it loaded: no byte is accepted under a stale plan |
| `ChaosStreamPlans.StepAnswers` | crates/eggchaos-core/src/stream.rs:523-597 | A poll counts as accepted exactly the bytes it answers for; termination and flush are reported with an empty queue only; an idle read ends the stream exactly at a drained graceful termination; evidence is up to date after a write or flush |
| `ChaosStreamPlans.StepOwes` | crates/eggchaos-core/src/stream.rs:523-597 | A write adds to what is owed to the writer exactly what the plan keeps of the bytes it answers for, under the generation in force; no other poll adds anything |
| `ChaosStreams.ChaosStream.UpdateLive` | crates/eggchaos-core/src/stream.rs:674-717 | The stream's whole history moves as the specified transition, whose plan `UpdateAdopts` ties to the loaded snapshot |
| `ChaosStreams.ChaosStream.Poll` | crates/eggchaos-core/src/stream.rs:479-597 | One write, flush, shutdown or read poll moves the history and answers as specified |
| `ChaosStreams.ChaosStream.PumpOnRead` | crates/eggchaos-core/src/stream.rs:484-515 | The read pump moves the history as specified, and says when an idle read ends the stream |
| `ChaosStreams.Session` | crates/eggchaos-core/src/stream.rs:523-717 | A stream opened on a snapshot and polled through any script puts on the wire, answers and mirrors what the specified run does |
| `LivePolicies.StepEffect` | crates/eggchaos-core/src/policy.rs:103-155 | A step that completes a call performs exactly that call, whole, on the cell; every other step leaves the policy alone |
| `LivePolicies.Linearizable` | crates/eggchaos-core/src/policy.rs:80-156 | Under every interleaving of any number of callers, the completed calls in completion order are a sequential history of the atomic object |
| `LivePolicies.EveryRun` | crates/eggchaos-core/src/policy.rs:64-156 | From creation, generation = 1 + successful publications, and never exceeds a u64 |
| `LivePolicies.GenerationCounts` | crates/eggchaos-core/src/policy.rs:95-156 | Each success advances the generation by exactly one, nothing else does |
| `LivePolicies.Pairing` | crates/eggchaos-core/src/policy.rs:78-82 | Two replies with one generation carry one plan and namespace, later replies never an older generation, and no two publications share one |
| `LivePolicies.AcceptedCarries` | crates/eggchaos-core/src/policy.rs:100-118 | An accepted publication carries its caller's validated plan and namespace, a guarded one the generation after the expected one |
| `LivePolicies.RepliesDeserved` | crates/eggchaos-core/src/policy.rs:80-156 | Every call gets the reply it deserves of the policy current at its place in the history: refused only for an invalid plan, another generation than the expected one, or for want of a further one; only an accepted one changes it |
| `LivePolicies.OneWinner` | crates/eggchaos-core/src/policy.rs:123-156 | At most one guarded publication ever succeeds per expected generation |
| `LivePolicies.LivePolicy.PublishPlan` | crates/eggchaos-core/src/policy.rs:95-118 | The retry loop, against any rivals between load and swap, takes effect as one atomic call |
| `LivePolicies.LivePolicy.PublishPlanExpected` | crates/eggchaos-core/src/policy.rs:123-156 | The guarded retry loop, against any rivals, takes effect as one atomic call |
| `Compiler.CheckStructure` | crates/eggchaos-experiment/src/source.rs:133-193 | Accepts exactly the structurally valid schedules |
| `Compiler.FlattenedPhases` | crates/eggchaos-experiment/src/source.rs:199-210 | The nested loops list the top-level phases and then every iteration's phases |
| `Compiler.ValidatePhaseActions` | crates/eggchaos-experiment/src/compiler.rs:190-214 | Accepts exactly phases of bounded size with valid plans and ids |
| `Compiler.ExpandedEventCount` | crates/eggchaos-experiment/src/compiler.rs:217-223 | Counts exactly the events of the compiled tape |
| `Compiler.EmitPhase` | crates/eggchaos-experiment/src/compiler.rs:90-95 | Extends the tape by one phase at the cursor and advances the cursor, unless it would leave the u64 range |
| `Compiler.CompileSchedule` | crates/eggchaos-experiment/src/compiler.rs:106-184 | Succeeds if and only if structure and actions are valid, at most 1024 events expand and the total duration fits a u64; the result is the specified tape, and size, overflow and validation errors mean what they say |
| `Compiler.OutputMeans` | crates/eggchaos-experiment/src/compiler.rs:128-176 | The tape carries the actions of the flattened phases in order, event i has index i, offsets never decrease and are the summed durations of the phases before |
| `Compiler.OutputRepeats` | crates/eggchaos-experiment/src/compiler.rs:144-176 | Top-level events come first; every repeat iteration is the previous one shifted by the block's event count and duration |
| `Compiler.RepeatShift` | crates/eggchaos-experiment/src/compiler.rs:158-175 | The same for any start index and offset and any iteration count |
| `Schedule.RemoveKeeps` | crates/eggchaos-core/src/plan.rs:376-381 | Removing a fault keeps exactly the other faults, each as often as before |
| `Schedule.RemoveConcat` | crates/eggchaos-core/src/plan.rs:376-381 | and keeps their order |
| `PolicyTargets.PolicyTarget.Publish` | crates/eggchaos-experiment/src/stream_target.rs:149-180 | Publishes exactly when the resource is supported and present, the plan valid and of its family, and the expected generation current and not the last one; otherwise changes nothing and says why |
| `PolicyTargets.PolicyTarget.Snapshot` | crates/eggchaos-experiment/src/stream_target.rs:134-142 | Current policy, or which error |
| `PolicyTargets.GuardedPublication` | crates/eggchaos-experiment/src/stream_target.rs:160-179 | On a stream resource this is exactly the guarded call of the linearizable publisher |
| `Driver.PrepareInitial` | crates/eggchaos-experiment/src/driver.rs:82-121 | Takes ownership of every touched resource, or fails with an unreachable one and nothing published |
| `Driver.ExpectedGeneration` | crates/eggchaos-experiment/src/driver.rs:453-466 | The owned generation in strict mode; otherwise the current one, absent exactly if the resource cannot be reached |
| `Driver.Removal` | crates/eggchaos-experiment/src/driver.rs:290-346 | A removal is planned exactly if the snapshot is of the resource's family, holds the fault and stays valid without it; the plan is the snapshot without it, and an absent fault is reported as such |
| `Driver.PlanRemove` | crates/eggchaos-experiment/src/driver.rs:300-334 | If the expected generation is still current when publishing, the plan is the current one minus the fault, also in strict mode where snapshot and expectation come from different places; it refuses exactly an unreachable resource, an absent fault or an invalid rest |
| `Driver.UpdateOwned` | crates/eggchaos-experiment/src/driver.rs:490-514 | Ownership moves to the published generation and nothing else changes |
| `Driver.WaitForDeadline` | crates/eggchaos-experiment/src/driver.rs:203-221 | Ends without an answer exactly if the deadline is beyond the clock or cancellation interrupts the sleep before it; otherwise answers the later of the clock and epoch + offset |
| `Driver.RecordEvent` | crates/eggchaos-experiment/src/driver.rs:268-288 | The record carries the event, its times, the published generation, the other direction's current generation and the target-wide count; nothing is recorded exactly if a stream's sibling cannot be read |
| `Driver.ApplyEvent` | crates/eggchaos-experiment/src/driver.rs:229-445 | Succeeds if and only if the resource is supported and present, the fault to remove is there, the resulting plan is valid and of the resource's family, the expected generation is still current and not the last one when the publication arrives, and a stream's sibling can be read; it publishes without recording exactly when only the sibling is missing |
| `Driver.PlayTape` | crates/eggchaos-experiment/src/driver.rs:141-176 | Keeps the run's invariant against all interference; recorded events are a tape prefix, none of them stopped before and each applied at its own time; cancelled if and only if nothing failed and the next event was stopped by a request, an unreachable deadline or an interrupted sleep; completed if and only if all are recorded; and a run nobody interferes with completes when every event is feasible and none is stopped |
| `Driver.AloneApplies` | crates/eggchaos-experiment/src/driver.rs:229-445 | When nobody else publishes, an event is applied whenever it is feasible on what the events before it leave |
| `Driver.RestoreTarget` | crates/eggchaos-experiment/src/driver.rs:558-582 | A restore publishes only on the owned generation, between any interference |
| `Driver.RestoreAll` | crates/eggchaos-experiment/src/driver.rs:525-550 | Restores every owned resource once, in some order |
| `Driver.RunCleanup` | crates/eggchaos-experiment/src/driver.rs:520-553 | Every owned resource gets the outcome it deserves; `leave` publishes nothing |
| `Driver.Drive` | crates/eggchaos-experiment/src/driver.rs:131-193 | Event loop and cleanup together yield a report that agrees with what was published and with how the tape was played |
| `Driver.Execute` | crates/eggchaos-experiment/src/driver.rs:82-193 | The same from a registry shared with any other publishers; without preparation nothing is published; without other publishers a supported, feasible and unstopped run is prepared and completes |
| `Driver.RunSchedule` | crates/eggchaos-experiment/src/driver.rs:131-193 | Compile and run: only compilable schedules run, and their runs are reported as above |
| `DriverProofs.EditsKeep` | crates/eggchaos-experiment/src/driver.rs:455-460 | Whatever others publish, the run's knowledge about its resources stays exact |
| `DriverProofs.OwnKeeps` | crates/eggchaos-experiment/src/driver.rs:490-500 | Each own publication keeps it, and touches one resource only |
| `DriverProofs.StrictIsolation` | crates/eggchaos-experiment/src/driver.rs:453-582 | In strict mode, after anybody else's log entry for a resource the run has none, and unless a restore came before it the resource is not reported restored; its generation is initial + own + external; it is still as the run last published it if and only if nobody else published; restored means the last own publication puts back the prepared plan on consecutive generations; a conflict means an external publication or no generation left |
| `DriverProofs.IsolatedMeans` | crates/eggchaos-experiment/src/driver.rs:455-460 | The isolation flag says exactly that nothing of the run's own follows an external log entry for the resource |
| `DriverProofs.ExternalMeans` | crates/eggchaos-experiment/src/driver.rs:455-460 | The external count is positive exactly if there is an external log entry since preparation |
| `DriverResults.StrictRun` | crates/eggchaos-experiment/src/driver.rs:82-193 | The same for every resource of every report, and without external publication cleanup does restore |
| `DriverResults.ExternalMeansConflict` | crates/eggchaos-experiment/src/driver.rs:453-582 | Once an external publication lands on a resource not yet restored, the run never publishes there again and cleanup reports a conflict |
| `DriverProofs.NoLostEdit` | crates/eggchaos-experiment/src/driver.rs:290-346 | Every event publication is what its action makes of the very policy it replaced, never before its deadline; remove-fault yields exactly the replaced plan minus that fault, strict or live |
| `DriverProofs.TapeOrder` | crates/eggchaos-experiment/src/driver.rs:145-176 | Events publish in tape order, each at most once |
| `DriverResults.EvidencePrefix` | crates/eggchaos-experiment/src/driver.rs:236-289 | Record i is compiled event i, not early, with exact lateness and the generation that event published |
| `DriverResults.LeftAtFold` | crates/eggchaos-experiment/src/driver.rs:520-530 | A completed strict `leave` run last published, to each resource, the fold of its actions over the prepared plan; the resource is still so if and only if nobody else published there |
| `DriverResults.LaterEdit` | crates/eggchaos-experiment/src/driver.rs:177-193 | After any strict report, restored or left, one more accepted publication by somebody else keeps the report true and moves the resource off what the run left |
| `DriverResults.FoldCanBeOverwritten` | crates/eggchaos-experiment/src/driver.rs:520-530 | A concrete completed `leave` run and log after which the resource is not at the fold |

## Left out

- Counters are naturals: u64 saturation of evidence counters and overflow of the monotonic clock in release times are not modelled. Generations, offsets, waits, copy numbers and the sums inside random ranges keep their widths.
- The activation counters (`activations`, `fault_activations`) and the active-fault evidence lists.
- The slow-close timer of `poll_shutdown` (its wait and the writer's own shutdown are one reply of the environment), `poll_due_termination`, `discard_all` and `next_deadline`: bookkeeping around the modelled queue.
- `poll_write_vectored` of a stream: it measures capacity before its flush, so it does not equal the scalar path; the engine's vectored acceptance, which does, is modelled.
- `BidirectionalChaosStream`, and the bytes a `ChaosStream` reads (its read pump is modelled).
- A cumulative rate bound for the stream token bucket: the code drops the debt of a deficit, so there is none.
- Wakers, notifications, Tokio timers, memory orderings and reference counting: only atomic steps and clock readings remain. Progress is stated for the driver only (an unhindered run completes).
- Seed mixing, SHA-256 fingerprints and the rounding of f64 probabilities: draws come from arbitrary step functions, probabilities are reals.
- serde, configuration files, HTTP and CLI front ends, language bindings, the proxy runtime and the server's own policy store.
- `DatagramLivePolicy`: the same publishing loop over datagram plans; the driver's target covers both families.
- Registration of resources in `StreamPolicyTarget` and aliased policies: the registry is fixed during a run and each resource has its own policy. Re-registration could make cleanup report `Missing`.
- The datagram heap is an ordered sequence with the same remove-min order; the map of owned resources is visited in an arbitrary order during cleanup.
- The segment loop appears twice in the code, inside `accept` and in `push_preserve_run`; it is modelled once. A comment says that accepted bytes advance the stream-loss offset on every path, while the code advances it only where stream loss is active; the model follows the code.
- DirectionEngines.DirectionEngine.AbsorbEvidence: the per-type activation counters are not modelled, so their sums are not stated.
- DatagramTiming.LeavingConforms: bounds a window from the release of its first charge, not from when that datagram left. Drained late, it leaves together with later ones, so bytes between two moments of leaving may exceed the bound by what the rate earned over that lateness (`DatagramTiming.LateDrainBunches`); a window whose first datagram leaves on time conforms.
- ChaosStreamPlans.StepAdopts: assumes that a generation carries one snapshot, which `LivePolicies.Pairing` provides.
- DatagramBucket.BandwidthConformance: for a fixed rate and burst and datagrams of at most 65535 bytes, the bound enforced by the validated queue limits; the 64-bit clamp of the wait could otherwise cut it short.
- StreamRuns.FragmentationIndependence: speaks of bytes outside a blackhole; what a blackhole swallows depends on when it closes.
- ChaosStreamSpec.LiveTransitions: assumes that a direct write reports at most the bytes it was offered and that observed generations never go back, which `LivePolicies.Pairing` provides.
- Driver.RestoreTarget: identities of cleanup namespaces are an arbitrary function of the event count.
- Phase, resource and fault names are counted in characters of a byte string.
