# Multiview program audio and control: a verification model

A Dafny model of the paths in Multiview that have to behave the same however they are
driven: the program-audio path on the output clock, the streaming DSP behind loudness
normalisation and display audio, and two small control protocols. `dafny verify
dfyconfig.toml` checks the whole project.

**Program audio.** `Cadence` decides how many frames a tick owes. `Store` is the bounded
last-good window of one source, `StoreHistory` says what it holds after any run of writes, and
`WindowPool` is the triple buffer behind its replace path as a two-thread protocol. `Mixer` is
the generational slot map with gain ramps; `MixerHandles` is what its handles guarantee.
`ProgramBus` puts the three together in place; `BusModel` is the same bus as a value, and
`BusInvariant`, `BusRuns`, `BusSignal`, `BusSteady` and `BusFade` prove what it keeps, that it
is a function of the absolute frame, and that its cross-fades have constant power. `BusSource`
says what an added source adds, `BusHandover` when a cross-fade is unbroken and what the live
edge gives, `BusShared` and `BusCut` what sharing a store does to the cut of a tick, `BusFormat`
what a store at another format does to the mix. `LoopDeck` is the media player's overlap-add
loop, `DeckTheorems`, `DeckTransport` and `DeckBuild` its reading, transport, exit and priming
rules, `SeamCorrelation` the test that picks a seam's law. `PlayerAudio` is the driver that
primes it and fills a lookahead window from it, `PlayerRail` that fill loop and the reading bus
as two threads, `PlayerTransport` and `PlayerExit` what pausing, stopping and leaving the loop
mean over their runs.

**Streaming DSP.** `Resampler` is the variable-ratio linear resampler, `TruePeak` the
oversampling detector, `TruePeakPhases` the filter it builds, `Loudnorm` the makeup gain and
limiter over it, `LoudnormLevel` the level that is heard, `LimiterSeam` and `LimiterStart` that
limiter across block seams and before its detector has filled. `Loudness` is the EBU R128 meter,
`LoudnessGates` the gates of Annex 1 of ITU-R BS.1770-4 and the loudness range of EBU Tech 3342.

**Control.** `CommandDrain` is the capped, bounded re-point backlog beside the working config it
mirrors, `CommandIntent` what was commanded against what is shown. `LiveSources` is the hub that
swaps the producers of running sources, `LiveProgress` what it gets done.

## How it is modelled

- Code that changes things in place is a class or a method with loops (`AudioStore`,
  `Mixer`, `ProgramBus`, `LoopDeck`, `AdaptiveResampler`, `TruePeakDetector`,
  `LoudnormProcessor`, `LoudnessMeter`, `CommandDrain`, `StopRegistry`, `Pool`), each method
  tied by its contract to a function of its old state; the theorems are about those
  functions, over whole runs.
- Two threads are a state machine whose steps are the atomic actions of either side; a
  theorem over them holds for every interleaving. A read is two of them, storing its cursor
  and then loading the window, and the cursor the other side loads may be an older one.
- A buffer keeps its interleaved layout: sample `frame * channels + channel`.
- Samples are exact reals. Sine, cosine, square root, logarithm and power are parameters
  with the laws they need stated where they are used: the Pythagorean identity, the shape of
  sine and cosine over the first quarter turn and their reflections, the zeros and extremes of
  sine, the square of a root, strict growth of the logarithm and its sum over a product, and the
  power as its inverse.
- The interpolation filter is built; theorems about the detector and the limiter hold for any
  coefficients. K-weighting is a parameter, linear where the level of a gained stream is stated.

## Where the code and its comments part

The model follows the code. Each point below has its exact condition or a counterexample.

- Two routes on one store share its read cursor, so a cut inside a tick can be heard. It is not
  exactly when only the first reader of a store is heard before it, and whoever is heard after it
  reads where it would have (`BusCut.CutIsFreeIff`); with every route heard, exactly when routed
  stores differ (`BusShared.CutIsIrrelevantIffDistinct`).
- A store at another format is said to be dropped for the tick. The strip keeps the last block it
  accepted, which is played again over the others, and silences the whole bus in any shorter tick,
  even when it is itself silent. Beside a channel that is heard, the drop holds exactly when there
  is no such block, or it is no longer than the tick and silent where it is heard
  (`BusFormat.MismatchIsDroppedIff` in every case, `BusFormat.StaleBlockEmits`,
  `BusFormat.LongSilentBlockSilencesAll`).
- A cross-fade is said to start from the channel's current gain with no discontinuity. It
  starts from the base gain: taken while the channel is still rising, it steps the old store
  up (`BusFade.CrossfadeIsSteplessIff`, `BusFade.CrossfadeDuringRiseIsSteplessIff`).
- The outgoing strip's cursor is said to be continued from where the channel left off. The seek to
  the live edge moves it when the new store is the old one, and a later route on the old store
  moves it before the outgoing strip reads: it is continued exactly when neither holds
  (`BusHandover.OutgoingReadsOnIff`, with the gain `BusHandover.CrossfadeIsSeamlessIff`). A fade
  onto the store already read is silence at once (`BusHandover.SameStoreFadeIsSilent`).
- The seek to the live edge is said to read fresh audio, not silence. The live edge is the head:
  what is heard is silence up to the next publish, and from there exactly what is published
  (`BusHandover.RepointStartsSilent`, `BusHandover.LiveEdgeHears`).
- `publish_window` replaces the window whole and does not clamp it to the capacity; the
  drop-oldest theorem is about `publish`, `publish_samples` and `publish_at`.
- The fill loop says no sample past the exit boundary is ever heard. From a followed arm on, that
  holds exactly when the cursor loaded for the next swap is behind the settle frame and the reader
  has heard nothing past it when the swap lands (`PlayerExit.ExitIsKeptIff`). A late arm fails the
  first, a slow swap the second (`PlayerExit.LateArmIsStillHeard`,
  `PlayerExit.SlowSwapIsStillHeard`).
- A reader within the lead of the fill loop is meant never to run dry. A read stores its cursor
  before it loads the window, so a fill that lands in between starts the window at the read's end
  and the read is silence (`PlayerRail.FillInsideAReadIsHeard`, `PlayerRail.PacedReadHasAHole`). A
  read within the lead is whole exactly when the window it loads starts no later than it does
  (`PlayerRail.PacedReadIsDeckIff`).
- The resampler's phase is documented as below one frame; it is exactly when the correction
  is not negative (`Resampler.PhaseIsFractionIff`).
- The limiter's ceiling is exact for windows inside a block. Across a seam it can be passed:
  by a bounded amount when the block is measured, and without being measured at all when it is
  pre-screened (`LimiterSeam.SeamOvershootIsBounded`). The exact condition for a seam never to
  pass it is `LimiterSeam.SeamMeetsCeilingIff`, for pre-screened blocks
  `LimiterSeam.ScreenedSeamsAreSafeIff`; a full-scale last sample passes it under every filter
  with a passthrough phase and outermost taps below the ceiling, the built one among them
  (`LimiterSeam.LatePeakEscapes`, `LimiterSeam.BuiltFilterLetsItEscape`). Nothing is measured
  before the detector has filled either: a loud sample among a fresh limiter's first eleven frames
  is emitted as it is (`LimiterStart.StartIsSafeIff`, `LimiterStart.EarlyPeakEscapes`).
- Every phase of the detector's filter is said to be normalised to give a constant back, and those
  after the first to interpolate. The sinc turns a quarter a tap, so the taps of the phase half-way
  between two samples are all zero: it is left as it is and measures nothing
  (`TruePeakPhases.HalfSamplePhaseIsSilent`, `TruePeakPhases.ConstantsReconstructIff`).
- Priming and scaling the detector's history are said to equal pushing; the exact conditions are
  `TruePeak.PrimingIsPushingIff` and `TruePeak.ScalingIsPushingScaledIff`.
- The loop seam's phase is described as centred, the tail dominant at the first frame and
  the head at the last. As computed it starts at one half and ends near one and a half, so
  under the linear law the seam starts on the average of the two legs and, in its second
  half, inverts the tail and over-drives the head (`DeckBuild.SeamPhaseIsCentredIff`,
  `DeckBuild.LinearSeamStaysInRangeIff`).
- Cancelling an exit is said to do nothing once its seam has fired. That holds until a realign: one
  to before the seam makes it withdrawable again (`DeckTransport.CancelWinsIff`,
  `DeckTransport.RealignReopensCancel`).
- A stop is said to restart the loop from its first body frame. With a crossfade it restarts on
  the first seam frame, which is that one only if the seam gives it back
  (`DeckBuild.RecueStartsAtBodyIff`).
- A zero correction is described as the identity; the resampler is then one frame late
  (`Resampler.UnityIsOneFrameLate`).
- A seam of the loop head with itself is described as transparent. An energyless head counts
  as decorrelated and is blended at equal power, so it is not, except at silent samples and in
  the very middle (`DeckBuild.SelfSeamIsTransparentIff`).
- A player's window is decoded a crossfade past the loop point so that the seam's tail is what
  really follows. Where the window's rounded ends are a sample closer than its rounded length
  the whole lap-over is dropped (`PlayerAudio.RealTailIff`,
  `PlayerAudio.NtscWindowLosesItsTail`).
- Shedding the oldest queued re-point is called harmless; it is exactly when a later one
  covers its cell or the cell already shows it (`CommandDrain.EnqueueConvergesIff`,
  `CommandDrain.BurstShedsALiveRoute`).
- One writer per reused store needs the exit wait to end in time
  (`LiveSources.SpawnAfterWaitIff`, `LiveSources.TimedOutEditHasTwoWriters`).

## Model

| member | source | states |
|---|---|---|
| `Cadence.SampleClock.constructor` | crates/multiview-audio/src/cadence.rs:55-63 | A fresh clock stands at tick zero; the sign of the cadence is dropped and a zero numerator divides by one. |
| `Cadence.SampleClock.AdvanceTo` | crates/multiview-audio/src/cadence.rs:110-119 | Catch-up owes the difference of the cumulative totals and moves forward only; a stale target owes nothing and changes nothing. |
| `Cadence.SampleClock.NextTick` | crates/multiview-audio/src/cadence.rs:94-96 | One tick owes the difference of two consecutive cumulative totals. |
| `Cadence.TotalMonotone` | crates/multiview-audio/src/cadence.rs:80-84 | The cumulative total never decreases, so no subtraction saturates. |
| `Cadence.EmissionTelescopes` | crates/multiview-audio/src/cadence.rs:94-119 | Over any run of `next_tick` and `advance_to`, stale targets included, what is emitted depends only on the first and last tick. |
| `Cadence.EmissionStaysInBand` | crates/multiview-audio/src/cadence.rs:80-119 | From a fresh clock the emitted total is always within one sample below the exact rational position, however the run is cut. |
| `Cadence.SingleTickIsFloorOrCeiling` | crates/multiview-audio/src/cadence.rs:80-96 | A tick owes the floor of the rate, or its ceiling when the rate is fractional. |
| `Cadence.PeriodOwesExactly` | crates/multiview-audio/src/cadence.rs:80-119 | `step_den` ticks from anywhere owe exactly `step_num` samples. |
| `Cadence.CadenceIsRealTime` | crates/multiview-audio/src/cadence.rs:55-119 | At num/den ticks a second any num ticks owe exactly den seconds of samples. |
| `Store.CopyInto` | crates/multiview-audio/src/store.rs:84-99 | A clamped in-place copy: exactly the overlapped cells change, to the source samples that lie over them. |
| `Store.OverlayFrom` | crates/multiview-audio/src/store.rs:110-130 | Overlaying a window on another puts each source sample at its own absolute frame and leaves the rest. |
| `Store.AudioStore.constructor` | crates/multiview-audio/src/store.rs:223-234 | An empty window at frame zero; a capacity of at least one frame. |
| `Store.AudioStore.SeekTo` | crates/multiview-audio/src/store.rs:285-287 | Parks the cursor at an absolute frame. |
| `Store.AudioStore.SeekToLiveEdge` | crates/multiview-audio/src/store.rs:298-302 | Parks the cursor at the writer's head. |
| `Store.AudioStore.PublishSamples` | crates/multiview-audio/src/store.rs:345-383 | A ragged buffer is refused and changes nothing; otherwise the window becomes the drop-oldest write at the head. |
| `Store.AudioStore.Publish` | crates/multiview-audio/src/store.rs:316-326 | A block of another format is refused; otherwise as `publish_samples`. |
| `Store.AudioStore.PublishAt` | crates/multiview-audio/src/store.rs:409-474 | A block lands at its own frame: head never retreats, capacity holds, the block wins where it lies, holes are silence; refused on a format mismatch. |
| `Store.AudioStore.PublishWindow` | crates/multiview-audio/src/store.rs:503-547 | Replaces the window whole; a ragged buffer leaves it alone. |
| `Store.AudioStore.Read` | crates/multiview-audio/src/store.rs:569-615 | Exactly the frames asked for, from the cursor, silence-filled outside the window; the cursor advances by as many. |
| `Store.AppendIsWritten` | crates/multiview-audio/src/store.rs:345-383 | Appending and draining the overflow from the front is the same write at the head. |
| `StoreHistory.WindowIsLastWrites` | crates/multiview-audio/src/store.rs:345-474 | After any mix of appends and placements the base is max(0, head - capacity) and every kept sample is the last write that covered it, else silence. |
| `StoreHistory.NothingPastHead` | crates/multiview-audio/src/store.rs:409-474 | No write covers anything at or past the head. |
| `StoreHistory.HeadIsFurthestEnd` | crates/multiview-audio/src/store.rs:409-474 | With placements alone the head is the furthest end, whatever their order. |
| `StoreHistory.LastWriteIsSomeCover` | crates/multiview-audio/src/store.rs:409-474 | With placements alone the last write at a sample is one of those covering it, if any. |
| `StoreHistory.Deliver` | crates/multiview-audio/src/store.rs:316-474 | A store driven through any run of writes ends on the window the theorems speak of, its cursor untouched. |
| `StoreHistory.DeliveryOrderIsIrrelevant` | crates/multiview-audio/src/store.rs:409-474 | Pairwise-disjoint blocks delivered in any two orders leave the identical window. |
| `WindowPool.Pool.TakeReusable` | crates/multiview-audio/src/store.rs:194-202 | Takes the first buffer no one else references out of the pool, or the fresh spare. |
| `WindowPool.Pool.ReturnBuffer` | crates/multiview-audio/src/store.rs:207-213 | Keeps a returned buffer while the pool is below its bound. |
| `WindowPool.TakeNeverAllocates` | crates/multiview-audio/src/store.rs:166-202 | With one writer and one reader the allocating fallback is unreachable. |
| `WindowPool.StepKeepsInv` | crates/multiview-audio/src/store.rs:503-615 | Every atomic step of either side keeps the pool's bookkeeping. |
| `WindowPool.RunKeepsInv` | crates/multiview-audio/src/store.rs:503-615 | So does every interleaving; the publish history only grows. |
| `WindowPool.SharedSnapshotsAreImmutable` | crates/multiview-audio/src/store.rs:503-615 | No step writes to the live snapshot or to the held one. |
| `WindowPool.SwapPublishesTheFill` | crates/multiview-audio/src/store.rs:503-547 | What a swap makes live is the window the writer set out to publish. |
| `WindowPool.HeldSnapshotIsStable` | crates/multiview-audio/src/store.rs:569-615 | A held snapshot stays the window that was loaded. |
| `WindowPool.ReadIsOnePublishedWindow` | crates/multiview-audio/src/store.rs:503-615 | Over every interleaving a read is the silence-filled slice of the one window newest when it loaded: never torn. |
| `WindowPool.ReplacingNeverAllocates` | crates/multiview-audio/src/store.rs:166-214 | However many windows are replaced, nothing is allocated and the pool stays below its bound. |
| `WindowPool.ReplaceGoesThrough` | crates/multiview-audio/src/store.rs:503-547 | From any idle writer, whatever the reader holds, a replacement makes exactly the window asked for live and gives back as many buffers as it took. |
| `WindowPool.AppendGoesThrough` | crates/multiview-audio/src/store.rs:345-383 | An append makes its own snapshot live and leaves the pool alone. |
| `WindowPool.ReadGoesThrough` | crates/multiview-audio/src/store.rs:569-615 | A read holds the newest window while it copies, then lets go of it, and changes nothing else. |
| `Mixer.TaperIsQuarterTurn` | crates/multiview-audio/src/mixer.rs:73-112 | Between gains in the unit range the clamp never acts: a rising ramp follows the sine of the elapsed quarter turn, a falling one its cosine. |
| `Mixer.Mixer.AddInput` | crates/multiview-audio/src/mixer.rs:271-292 | A recycled slot keeps its current generation, a new one starts at zero; the handle names the new strip. |
| `Mixer.Mixer.RemoveInput` | crates/multiview-audio/src/mixer.rs:310-326 | Removal empties the slot, bumps its generation and frees it; at the last generation the slot becomes a tombstone; a stale handle changes nothing. |
| `Mixer.Mixer.RouteToProgram` | crates/multiview-audio/src/mixer.rs:350-355 | Sets the program gain of a live strip only. |
| `Mixer.Mixer.SetGainRamp` | crates/multiview-audio/src/mixer.rs:370-374 | Attaches a ramp to a live strip only. |
| `Mixer.Mixer.AdvanceRamps` | crates/multiview-audio/src/mixer.rs:396-408 | Moves every ramp on; one that runs out folds its end value into the gain and goes. |
| `Mixer.Mixer.Submit` | crates/multiview-audio/src/mixer.rs:417-431 | Refuses a format mismatch or a dead handle; otherwise stores the block. |
| `Mixer.Mixer.MixProgram` | crates/multiview-audio/src/mixer.rs:471-541 | As long as the longest routed block; each sample the clamped sum of every strip at its per-frame gain. |
| `Mixer.Mixer.Accumulate` | crates/multiview-audio/src/mixer.rs:486-531 | One strip's share of the bus, at a steady gain or frame by frame along its ramp. |
| `Mixer.AdvanceShiftsGain` | crates/multiview-audio/src/mixer.rs:396-408 | Advancing a ramp changes no gain of any later frame, also when it runs out. |
| `Mixer.EqualPower` | crates/multiview-audio/src/mixer.rs:89-112 | A rising and a falling taper of equal length have squares summing to one at every frame, and end at exactly one and zero. |
| `Mixer.RampMovesOneWay` | crates/multiview-audio/src/mixer.rs:89-112 | A ramp leaves from its first gain, moves one way only and arrives at its last. |
| `MixerHandles.StepKeepsInv` | crates/multiview-audio/src/mixer.rs:271-326 | A slot is free exactly when it is empty and its generation has never been issued; every issued handle is distinct: kept by each add and remove. |
| `MixerHandles.HandlesNeverAlias` | crates/multiview-audio/src/mixer.rs:271-326 | Over any run, no two handles ever issued are equal, and the free list is exactly the duplicate-free set of empty non-tombstone slots, up to generation exhaustion. |
| `MixerHandles.RemovedNeverResolves` | crates/multiview-audio/src/mixer.rs:310-345 | A removed handle never resolves again, whatever follows. |
| `MixerHandles.SpentStaysSpent` | crates/multiview-audio/src/mixer.rs:271-345 | A spent generation or tombstone is never revived. |
| `MixerHandles.SlotCensus` | crates/multiview-audio/src/mixer.rs:209-326 | Slots are the live, the free and the tombstones, counted without overlap. |
| `MixerHandles.AddStaysWithinPeak` | crates/multiview-audio/src/mixer.rs:271-292 | Adding a strip grows storage only past the peak of live strips plus tombstones. |
| `MixerHandles.RemoveStaysWithinPeak` | crates/multiview-audio/src/mixer.rs:310-326 | Removing one never breaks that bound. |
| `BusInvariant.SweepRemovesFinished` | crates/multiview-audio/src/program.rs:390-407 | Retiring removes exactly the finished outgoing strips, from the mixer, the routes and the fading list. |
| `BusInvariant.RemoveKeepsMatched` | crates/multiview-audio/src/program.rs:390-407 | Removing a routed strip and its route keeps strips and routes in step. |
| `BusRuns.AddSourceKeepsInv` | crates/multiview-audio/src/program.rs:137-147 | Adding a source keeps the bus invariant. |
| `BusRuns.RepointKeepsInv` | crates/multiview-audio/src/program.rs:165-181 | A hard re-point keeps it. |
| `BusRuns.CrossfadeKeepsInv` | crates/multiview-audio/src/program.rs:219-271 | A cross-fade keeps it, with its outgoing strip on a running ramp. |
| `BusRuns.MixKeepsInv` | crates/multiview-audio/src/program.rs:339-407 | A mix keeps it: after retirement no fading strip is without a ramp. |
| `BusRuns.TickKeepsGood` | crates/multiview-audio/src/program.rs:329-407 | A tick emits exactly the clock's frames and keeps the storage bound. |
| `BusRuns.CrossfadeStaysWithinPeak` | crates/multiview-audio/src/program.rs:219-271 | A cross-fade keeps strip slots within peak live strips plus tombstones. |
| `BusRuns.RunsStayGood` | crates/multiview-audio/src/program.rs:137-407 | Over every run of adds, re-points, cross-fades, ticks and publishes: strips are exactly the distinct routes, every fading strip has a ramp, the output is exactly the clock's total, and slots never exceed peak plus tombstones. |
| `BusRuns.FreshRunIsGood` | crates/multiview-audio/src/program.rs:118-126 | A new bus starts such a run. |
| `BusSource.AddedGain` | crates/multiview-audio/src/program.rs:128-147 | The point an added source returns plays its store at the gain asked for, from now on; every other channel keeps its gain and its store. |
| `BusSource.AddedSourceIsHeard` | crates/multiview-audio/src/program.rs:128-147 | Whatever is routed, the next block is the clamped sum of what was heard before and the gain times what the store gives after its earlier readers. |
| `BusSource.AddedSignal` | crates/multiview-audio/src/program.rs:128-147 | Over a store not routed yet, the program is what it was plus the gain times the store, at every frame to come, however the ticks are cut. |
| `BusSignal.BlockIsSignal` | crates/multiview-audio/src/program.rs:339-378 | One block is the program signal at the next absolute frames, with the hard limit. |
| `BusSignal.MixStaysSteady` | crates/multiview-audio/src/program.rs:339-407 | A mix keeps routed stores distinct and every fade headed for silence. |
| `BusSignal.TickShifts` | crates/multiview-audio/src/program.rs:329-407 | After a tick the signal is the same signal, that many frames later, retired strips included. |
| `BusSignal.BlocksAreSignal` | crates/multiview-audio/src/program.rs:329-407 | The concatenated blocks of any ticks are that signal. |
| `BusSignal.TickPartitionIsIrrelevant` | crates/multiview-audio/src/program.rs:329-407 | With distinct routed stores and no control or publish between, any increasing or stale targets ending at t emit end to end the very block of one tick to t. |
| `BusSignal.TickPartitionLeavesSameSignal` | crates/multiview-audio/src/program.rs:329-407 | Nor does what is heard after depend on the cut. |
| `BusShared.BlockIsHeard` | crates/multiview-audio/src/program.rs:339-378 | For any routes, shared stores included, a block is the clamped sum of what each route reads after those before it on the same store. |
| `BusShared.SharedCutIsHeard` | crates/multiview-audio/src/program.rs:329-378 | Whenever a route that shares its store with an earlier one is heard in the first part of a tick, some store contents make the cut there audible. |
| `BusShared.CutIsIrrelevantIffDistinct` | crates/multiview-audio/src/program.rs:329-378 | While every route is heard from the first frame, that is exactly when no two routes share a store. |
| `BusCut.CutIsFreeIff` | crates/multiview-audio/src/program.rs:329-378 | For any bus, channels still silent and fades that finish on the way included, and any cut inside a tick: over all store contents the cut makes no difference exactly when, before it, only the first reader of a store is heard, and after it, whoever is heard reads where it would have in the whole tick. |
| `BusCut.RestNeedsLastReaders` | crates/multiview-audio/src/program.rs:339-407 | While no fade finishes before the cut, the second half of that is: after it, only the last reader of a store is heard. |
| `BusFade.UnknownPointIsRefused` | crates/multiview-audio/src/program.rs:157-181 | A point that is not routed is refused, hard or cross-faded, and the store offered is not moved. |
| `BusSource.PublishedIsHeard` | crates/multiview-audio/src/program.rs:339-356 | A publish is heard from the next tick by exactly the channels that read the store, where they would have read on. |
| `BusHandover.OutgoingReadsOnIff` | crates/multiview-audio/src/program.rs:230-256 | In every later tick the outgoing strip reads on from where the channel left off exactly when the new store is another one and no later route reads the old one. |
| `BusHandover.CrossfadeIsSeamlessIff` | crates/multiview-audio/src/program.rs:230-271 | A cross-fade takes the old store over at the gain and from the frame where the channel was exactly when, besides, the channel's own ramp stands at full or its gain is zero. |
| `BusHandover.SameStoreFadeIsSilent` | crates/multiview-audio/src/program.rs:238-271 | Cross-faded onto the store it already reads, a channel falls silent, both strips at or past the head, whatever was playing. |
| `BusHandover.LiveEdgeHears` | crates/multiview-audio/src/program.rs:165-181 | A channel parked at the live edge reads exactly what is published from then on, less what the capacity has evicted; every frame past that is silence. |
| `BusHandover.RepointStartsSilent` | crates/multiview-audio/src/program.rs:165-181 | So a re-pointed channel is silent until its new store is next published to. |
| `BusFormat.MismatchedStripIsKept` | crates/multiview-audio/src/program.rs:339-356 | A store at another format is refused by the mixer: its strip keeps the last block it accepted, while the store's cursor moves on. |
| `BusFormat.StaleBlockEmits` | crates/multiview-audio/src/program.rs:346-364 | What the bus emits with such a kept block among its strips: longer than the tick, or the others not filling a tick it does not fill either, and the whole bus is silent; in a tick of its length, or shorter beside others that fill it, it is played over them. |
| `BusFormat.MismatchIsDroppedIff` | crates/multiview-audio/src/program.rs:346-364 | Over everything the stores hold, the bus emits what it would with the input dropped, as the comment says, exactly when the strip has no earlier block, or one longer than the tick with no other channel heard, or one no longer that is silent where it is heard, or a shorter one alone on the bus. |
| `BusFormat.RepointedMismatchReplays` | crates/multiview-audio/src/program.rs:165-181 | A channel re-pointed onto a store at another format keeps the last block it mixed: any shorter tick is then silent, whatever else is routed, and one of its length plays it again. |
| `BusFormat.LongSilentBlockSilencesAll` | crates/multiview-audio/src/program.rs:339-364 | On a bus the invariant holds of, a silent kept block one frame longer than the tick silences the other channel too. |
| `BusSteady.AddSourceKeepsSteady` | crates/multiview-audio/src/program.rs:128-147 | Adding a source that is not routed yet keeps the ticks free to be cut. |
| `BusSteady.RepointKeepsSteady` | crates/multiview-audio/src/program.rs:165-181 | So does a hard re-point onto one. |
| `BusSteady.CrossfadeKeepsSteady` | crates/multiview-audio/src/program.rs:219-271 | So does a cross-fade onto one, whatever other fades are in flight. |
| `BusSteady.RunsStaySteady` | crates/multiview-audio/src/program.rs:137-407 | Over every run of such operations, ticks and publishes, with fades in flight, finished or overlapping, the next ticks may be cut anywhere. |
| `BusSteady.FreshBusIsSteady` | crates/multiview-audio/src/program.rs:118-126 | A new bus starts such a run. |
| `BusFade.RepointMovesOneChannel` | crates/multiview-audio/src/program.rs:165-181 | A hard re-point moves one channel, from its new store's live edge on, and no other channel or store. |
| `BusFade.CrossfadeHandsOver` | crates/multiview-audio/src/program.rs:219-271 | A cross-fade gives the channel its new store at the live edge, leaves the old one to a fresh outgoing strip, and touches no other channel. |
| `BusFade.CrossfadeStartsFade` | crates/multiview-audio/src/program.rs:219-271 | A cross-fade starts with the channel at the foot of its rise and the newest outgoing strip, which reads the old store, at the top of its fall, both at the channel's base gain. |
| `BusFade.CrossfadeIsSteplessIff` | crates/multiview-audio/src/program.rs:242-256 | The old store is heard at one gain across the moment a cross-fade is taken exactly when the channel's own ramp, if any, stands at full or its gain is zero. |
| `BusFade.CrossfadeDuringRiseIsSteplessIff` | crates/multiview-audio/src/program.rs:242-256 | A fade taken n frames into an earlier rise takes over at the gain the channel had exactly when that rise is over or the gain is zero. |
| `BusFade.ElapsedTelescopes` | crates/multiview-audio/src/program.rs:329-332 | The frames a run of ticks moves a fade by depend only on where it ends. |
| `BusFade.TicksAdvanceFade` | crates/multiview-audio/src/program.rs:339-407 | Any ticks move an uninterrupted fade on by exactly their frames, and settle and reclaim it when it is over. |
| `BusFade.CrossfadeHasConstantPower` | crates/multiview-audio/src/program.rs:219-271 | For every cut of the ticks, the gains of the channel and of the strip reading the old store on fade frame k depend only on k, their squares sum to the square of the base gain, and it ends at base and reclaimed. |
| `ProgramBus.ProgramBus.constructor` | crates/multiview-audio/src/program.rs:118-126 | An empty bus on a clock at tick zero. |
| `ProgramBus.ProgramBus.AddSource` | crates/multiview-audio/src/program.rs:128-147 | Adds a routed strip at its gain, bound to the store as it stands. |
| `ProgramBus.ProgramBus.Repoint` | crates/multiview-audio/src/program.rs:165-181 | Re-binds a known channel at the new store's live edge; an unknown one is refused and nothing changes. |
| `ProgramBus.ProgramBus.RepointCrossfade` | crates/multiview-audio/src/program.rs:219-271 | The outgoing and incoming strips, ramps, routes and live-edge seek of the fade; a zero ramp is the hard switch. |
| `ProgramBus.ProgramBus.PullAll` | crates/multiview-audio/src/program.rs:339-356 | Reads every routed store once, in route order, into its strip. |
| `ProgramBus.ProgramBus.RetireCompletedFades` | crates/multiview-audio/src/program.rs:390-407 | The pruning loop removes exactly the finished fades. |
| `ProgramBus.ProgramBus.MixFrames` | crates/multiview-audio/src/program.rs:339-378 | Pull, mix, advance, retire; the block is exactly as long as asked, silence when nothing fits. |
| `ProgramBus.ProgramBus.Tick` | crates/multiview-audio/src/program.rs:309-312 | One tick on the clock. |
| `ProgramBus.ProgramBus.TickTo` | crates/multiview-audio/src/program.rs:329-332 | The block owed up to a target tick. |
| `ProgramBus.ClockIsMonotone` | crates/multiview-audio/src/cadence.rs:80-84 | The sample clock supplies the monotone total the bus theorems ask for. |
| `LoopDeck.LoopDeck.constructor` | crates/multiview-audio/src/loopdeck.rs:183-230 | A primed deck starts vamping at frame zero; over an empty tape it is idle. |
| `LoopDeck.LoopDeck.Stop` | crates/multiview-audio/src/loopdeck.rs:494-498 | Stopping silences, rewinds the high-water mark and latches a re-cue. |
| `LoopDeck.LoopDeck.ArmExit` | crates/multiview-audio/src/loopdeck.rs:504-507 | Arms at the deck's own read position. |
| `LoopDeck.LoopDeck.ArmExitAt` | crates/multiview-audio/src/loopdeck.rs:517-540 | Arms at an anchor, anchoring a pending re-cue there; only a vamping deck arms. |
| `LoopDeck.LoopDeck.CancelExit` | crates/multiview-audio/src/loopdeck.rs:550-559 | Cancels unless the seam has been read. |
| `LoopDeck.LoopDeck.Read` | crates/multiview-audio/src/loopdeck.rs:592-597 | The next frames at the deck's cursor. |
| `LoopDeck.LoopDeck.ReadAt` | crates/multiview-audio/src/loopdeck.rs:618-624 | Any frames, at an absolute frame. |
| `LoopDeck.LoopDeck.ReadInto` | crates/multiview-audio/src/loopdeck.rs:632-640 | The same samples through the reusable buffer. |
| `LoopDeck.LoopDeck.Fill` | crates/multiview-audio/src/loopdeck.rs:646-704 | Every cell of the buffer is the deck's sample at its absolute frame; every internal index is in range, so no default sample is used. |
| `LoopDeck.LoopDeck.WriteLoopFrame` | crates/multiview-audio/src/loopdeck.rs:709-736 | One frame of the lap: the seam over the head, the body after it, faded if asked. |
| `DeckTheorems.ReadsArePointwise` | crates/multiview-audio/src/loopdeck.rs:591-736 | With no re-cue pending, no run of reads and realigns changes what any absolute frame sounds like. |
| `DeckTheorems.ChunksAreOneRead` | crates/multiview-audio/src/loopdeck.rs:592-704 | Any chunking of advancing reads is one read. |
| `DeckTheorems.VampIsPeriodic` | crates/multiview-audio/src/loopdeck.rs:646-704 | While vamping the output is periodic from the phase. |
| `DeckTheorems.RecueStartsAtHead` | crates/multiview-audio/src/loopdeck.rs:494-498 | The first vamping read after a stop plays frame zero of the lap, whatever the anchor. |
| `DeckTheorems.SeamIsNextBoundary` | crates/multiview-audio/src/loopdeck.rs:517-540 | The armed seam is the least lap boundary strictly after the anchor. |
| `DeckTheorems.ArmedExitShape` | crates/multiview-audio/src/loopdeck.rs:517-704 | Arming leaves every frame before the seam, then fades the still-moving loop never louder than it was, then is silent from the settle frame. |
| `DeckTheorems.ExitTailFalls` | crates/multiview-audio/src/loopdeck.rs:741-747 | The exit tail only falls, between full gain and silence. |
| `DeckTheorems.ArmedTailIsCosine` | crates/multiview-audio/src/loopdeck.rs:741-747 | Tail frame j of an armed exit is the still-advancing loop at the cosine of (j + 1/2) / W of a quarter turn. |
| `DeckTheorems.ArmedTailFallsStrictly` | crates/multiview-audio/src/loopdeck.rs:741-747 | Where the loop holds a level the tail falls strictly below it, frame by frame, and stays above silence; frames as far from either end carry its power between them. |
| `DeckTheorems.CancelWinsBeforeSeam` | crates/multiview-audio/src/loopdeck.rs:517-559 | Cancelling before the seam is read leaves every frame as if never armed; after it, the exit stands. |
| `DeckTheorems.ReadsKeepState` | crates/multiview-audio/src/loopdeck.rs:591-704 | Reads change neither transport state nor phase. |
| `DeckBuild.FrameToSampleIsExact` | crates/multiview-audio/src/loopdeck.rs:775-785 | The frame-to-sample map is monotone and within half a sample of exact. |
| `DeckBuild.WindowLengthsAgree` | crates/multiview-audio/src/loopdeck.rs:257-329 | Rounding a window's length and differencing its rounded ends disagree by at most one sample. |
| `DeckBuild.IsDecorrelated` | crates/multiview-audio/src/loopdeck.rs:436-453 | The loops compute the normalised correlation test; an energyless leg counts as decorrelated. |
| `DeckBuild.BuildSeam` | crates/multiview-audio/src/loopdeck.rs:379-429 | Every seam sample is the equal-power or linear blend of tail and head, chosen by the correlation. |
| `DeckBuild.SeamGainsHoldLevel` | crates/multiview-audio/src/loopdeck.rs:379-429 | Linear gains sum to one, equal-power ones to one in power. |
| `DeckBuild.SeamPhaseIsCentredIff` | crates/multiview-audio/src/loopdeck.rs:402-410 | The computed seam phase is the documented centred one exactly for a one-frame crossfade; any other starts half-way through. |
| `DeckBuild.LinearSeamStaysInRangeIff` | crates/multiview-audio/src/loopdeck.rs:402-413 | Under the linear law both legs stay between silence and full gain exactly in the first half of the seam. |
| `DeckBuild.SeamHandsOver` | crates/multiview-audio/src/loopdeck.rs:402-418 | The tail only falls throughout; the head only rises under the linear law, and under the equal-power one rises to the middle and falls back from there. |
| `DeckBuild.PlainLoopIsTheBody` | crates/multiview-audio/src/loopdeck.rs:379-736 | A loop whose material ends at its loop point replays its body unaltered, lap after lap. |
| `DeckBuild.RecueStartsAtBodyIff` | crates/multiview-audio/src/loopdeck.rs:488-498 | That frame is the body's first, as promised, exactly when there is no crossfade or the first seam sample gives it back: under the linear law a tail that starts on the same sample. |
| `DeckBuild.SelfSeamIsTransparentIff` | crates/multiview-audio/src/loopdeck.rs:379-429 | A seam of the head with itself gives a sample back exactly when the head counts as having energy, the sample is silent, or the frame is the very middle. |
| `DeckBuild.WithSegment` | crates/multiview-audio/src/loopdeck.rs:183-230 | Ragged or short material is refused; otherwise body, seam and clamped crossfade are recorded as asked. |
| `DeckBuild.FromWindow` | crates/multiview-audio/src/loopdeck.rs:346-372 | A window short by more than the tolerance, or ragged, is a silent deck; a smaller shortfall is padded with silence; the loop is never shortened. |
| `DeckBuild.FromClipWindow` | crates/multiview-audio/src/loopdeck.rs:257-329 | The same rules over a whole clip: a window that is empty, over the cap or out of range is a silent deck. |
| `DeckTransport.ArmingNeedsVamping` | crates/multiview-audio/src/loopdeck.rs:513-518 | Only a vamping deck arms. |
| `DeckTransport.ArmedRecuePlaysOnce` | crates/multiview-audio/src/loopdeck.rs:517-540 | Armed while a re-cue is pending, the lap starts at the anchor, is heard once, fades over the next and is silent from there, whatever reads follow. |
| `DeckTransport.MarkIsFurthestRead` | crates/multiview-audio/src/loopdeck.rs:604-640 | The high-water mark is the furthest frame read. |
| `DeckTransport.CancelWinsIff` | crates/multiview-audio/src/loopdeck.rs:548-559 | An armed exit is withdrawn exactly when nothing has been read up to its seam; otherwise it stands. |
| `DeckTransport.RealignReopensCancel` | crates/multiview-audio/src/loopdeck.rs:548-604 | A realign to before the seam makes an exit that has fired withdrawable again. |
| `DeckTransport.StopRewindsReads` | crates/multiview-audio/src/loopdeck.rs:488-498 | After a stop and a vamp, advancing reads of any sizes play the lap from its first frame. |
| `SeamCorrelation.CorrelationIsBounded` | crates/multiview-audio/src/loopdeck.rs:436-453 | The correlation of any two legs lies between minus one and one. |
| `SeamCorrelation.CorrelationIgnoresLevel` | crates/multiview-audio/src/loopdeck.rs:436-453 | Playing either leg louder or quieter leaves it as it was. |
| `SeamCorrelation.SeamLawIgnoresLevel` | crates/multiview-audio/src/loopdeck.rs:436-453 | So the law a seam gets does not depend on how loud its legs are, while both count as having energy; a correlated leg turned upside down is decorrelated. |
| `PlayerAudio.FollowVideoControl` | crates/multiview-cli/src/audio.rs:527-552 | A generation already applied does nothing; a new one applies exactly its transport, arming at its anchor. |
| `PlayerAudio.FillOnce` | crates/multiview-cli/src/audio.rs:474-511 | One pass: follow, then re-derive and replace `[cursor, min(settle, cursor + lead))`, or publish nothing when that is empty. |
| `PlayerAudio.RetainVampWindow` | crates/multiview-cli/src/audio.rs:298-344 | Exactly the frames `[in_sample, want_end)` of the stream, for any blocks, never holding more than the window. |
| `PlayerAudio.WholeBlocksJoin` | crates/multiview-cli/src/audio.rs:298-344 | How a stream is cut into whole-frame blocks does not matter. |
| `PlayerAudio.PrimeDeck` | crates/multiview-cli/src/audio.rs:409-459 | An empty or over-long window is a silent tape; otherwise the kept window, padded by at most the tolerance, is recorded at the asked length, or refused when shorter. |
| `PlayerAudio.PrimableIff` | crates/multiview-cli/src/audio.rs:413-423 | A window is built into a loop from a single sample to ten minutes of them. |
| `PlayerAudio.RealTailIff` | crates/multiview-cli/src/audio.rs:418-448 | A primed loop keeps its real tail exactly when the window's rounded ends are at least its rounded length apart or the loop is too short for a whole crossfade. |
| `PlayerAudio.NtscWindowLosesItsTail` | crates/multiview-cli/src/audio.rs:418-448 | At 30000/1001, frames 1 to 4 are 4805 samples long but 4804 apart: the whole lap-over is dropped. |
| `DeckBuild.MediaTimeIsFloor` | crates/multiview-cli/src/audio.rs:557-562 | A media time maps to the last frame not after it, never decreasing; negative times to frame zero. |
| `PlayerRail.PublishSyncs` | crates/multiview-cli/src/audio.rs:490-511 | A publish whose horizon is ahead of the cursor makes the window exactly what the deck plays there, whatever it held. |
| `PlayerRail.StepKeepsSync` | crates/multiview-cli/src/audio.rs:474-511 | Every step that observes no new control keeps it so. |
| `PlayerRail.LaterReadsObeyTheExit` | crates/multiview-cli/src/audio.rs:474-517 | From then on, over every interleaving, a read hears the deck or silence, silence from the settle frame on, and the deck itself when the window it loads starts no later than the read and reaches past it. |
| `PlayerRail.ExitBoundaryIsKept` | crates/multiview-cli/src/audio.rs:474-517 | Once a fill has followed an arm and publishes with the settle frame ahead of the cursor it loaded, no later read hears anything at or past it until a new control is observed. |
| `PlayerRail.PacedReaderHearsTheDeck` | crates/multiview-cli/src/audio.rs:474-517 | A reader advancing at most the lead between publishes hears one gap-free slice of the deck, as long as no fill loads the cursor of a read still under way. |
| `PlayerRail.FollowedStaysFollowed` | crates/multiview-cli/src/audio.rs:527-540 | A generation followed once is not applied again: until the next post no step observes anything new. |
| `PlayerRail.ReadIsDeckIff` | crates/multiview-audio/src/store.rs:569-615 | A read hears exactly the deck when, and only when, the deck is silent in every frame of it the loaded window does not have. |
| `PlayerRail.PacedReadIsDeckIff` | crates/multiview-audio/src/store.rs:569-615 | A read within the lead, of a loop that sounds at its first frame, has no hole exactly when the window it loads does not start after it. |
| `PlayerRail.FillInsideAReadIsHeard` | crates/multiview-audio/src/store.rs:569-598 | A fill that lands between a read's cursor store and its window load makes the whole read silence while the loop vamps, from any state in step. |
| `PlayerRail.PacedReadHasAHole` | crates/multiview-audio/src/store.rs:569-598 | A reachable run of it, within the lead. |
| `PlayerTransport.FollowedPauseIsSilent` | crates/multiview-cli/src/audio.rs:547-551 | A new pause or stop, once followed, silences every frame of the deck. |
| `PlayerTransport.MutedUntilVamping` | crates/multiview-cli/src/audio.rs:474-551 | Once a window has been published after it, every read is silence, over every interleaving, until a new vamp is followed. |
| `PlayerTransport.PauseResumesMidLoop` | crates/multiview-cli/src/audio.rs:539-549 | A pause followed by a vamp, however read in between, gives back every frame as it would have been without it. |
| `PlayerTransport.FollowedVampLoops` | crates/multiview-cli/src/audio.rs:539-541 | A vamp without an exit loops on from the phase, whatever the deck was doing, an exit included. |
| `PlayerTransport.PublishedSeamStandsIff` | crates/multiview-cli/src/audio.rs:490-511 | An exit can be withdrawn after a top-up exactly while neither the seam has been read nor the window reaches it. |
| `PlayerTransport.FollowedArmShape` | crates/multiview-cli/src/audio.rs:539-546 | An armed vamp plays the loop up to the first lap boundary after its anchor, its cosine tail for a crossfade, and silence from there. |
| `PlayerTransport.StopRestartsTheLap` | crates/multiview-audio/src/loopdeck.rs:488-498 | A stop followed by a vamp, however read in between, starts the lap at the first top-up, in the deck and in the window it publishes. |
| `PlayerExit.ExitNeedsSettleAhead` | crates/multiview-cli/src/audio.rs:490-511 | Over every whole window the store may hold, one top-up leaves from its cursor on what the exiting deck plays exactly when the settle frame is ahead of that cursor. |
| `PlayerExit.ExitIsKeptIff` | crates/multiview-cli/src/audio.rs:474-517 | From a followed arm to the next swap and on: over every window the store may hold and everything that follows, nothing at or past the settle frame is heard exactly when the cursor loaded for the swap is behind it and the reader has heard nothing past it when the swap lands. |
| `PlayerExit.LateArmIsStillHeard` | crates/multiview-cli/src/audio.rs:474-511 | A reachable run: a boundary already passed is followed, nothing is republished, the loop is still heard. |
| `PlayerExit.SlowSwapIsStillHeard` | crates/multiview-cli/src/audio.rs:474-511 | A reachable run: the loaded cursor is behind the boundary, but the loop is read past it before the window is replaced. |
| `PlayerRail.LastPostIsApplied` | crates/multiview-cli/src/player/control.rs:117-133 | Posts coalesce, but the next follow applies the last one exactly: generations never repeat. |
| `Resampler.InputStep` | crates/multiview-audio/src/adaptive.rs:78-87 | The step is the inverse of the ratio, and at most one frame exactly when the correction is not negative. |
| `Resampler.AdaptiveResampler.constructor` | crates/multiview-audio/src/adaptive.rs:117-126 | Unity ratio, no carry, phase zero. |
| `Resampler.AdaptiveResampler.Process` | crates/multiview-audio/src/adaptive.rs:154-217 | The output is the stream read by interpolation from where the last block left off; a block of another format comes back unchanged. |
| `Resampler.AdaptiveResampler.EmitBlock` | crates/multiview-audio/src/adaptive.rs:176-197 | The loop emits every position below the block's end, and stops at the first past it. |
| `Resampler.AdaptiveResampler.SampleIsOrigin` | crates/multiview-audio/src/adaptive.rs:224-244 | The block-local read is the stream's own, and its clamp never acts. |
| `Resampler.DemandIsNearest` | crates/multiview-audio/src/adaptive.rs:54-67 | A demand inside the band is kept; any other becomes the nearest inside it. |
| `Resampler.MillionFrames` | crates/multiview-audio/src/adaptive.rs:54-87 | Under any demand, however chunked, a million frames become the ceiling of a million plus the demand in parts per million, after the band. |
| `Resampler.ChunksAreIrrelevant` | crates/multiview-audio/src/adaptive.rs:154-217 | At one ratio, any split of the input gives the output and state of feeding it whole. |
| `Resampler.StepsAreConserved` | crates/multiview-audio/src/adaptive.rs:154-217 | However the ratio moves, the steps emitted equal the frames consumed plus the phase, which stays below the largest step. |
| `Resampler.OutputCountIsCeiling` | crates/multiview-audio/src/adaptive.rs:154-217 | At a constant ratio n frames become exactly the ceiling of n times the ratio. |
| `Resampler.UnityIsOneFrameLate` | crates/multiview-audio/src/adaptive.rs:154-217 | At zero correction the output is the input one frame late, its first frame repeated. |
| `Resampler.LinesStayLines` | crates/multiview-audio/src/adaptive.rs:183-195 | A channel on a straight line is read on that line at every position past the first frame. |
| `Resampler.EmittedFrame` | crates/multiview-audio/src/adaptive.rs:176-197 | Output frame j reads the stream at the start position plus j steps. |
| `Resampler.PhaseIsFractionIff` | crates/multiview-audio/src/adaptive.rs:107-111 | The phase is always below one frame exactly when the correction is not negative. |
| `TruePeak.BuildPolyphase` | crates/multiview-audio/src/truepeak.rs:211-247 | The windowed-sinc prototype split into four phases, each normalised to unity gain at DC. |
| `TruePeak.FirstPhasePassesThrough` | crates/multiview-audio/src/truepeak.rs:203-247 | The first phase built is the pure passthrough of the sample six steps back. |
| `TruePeak.TruePeakDetector.constructor` | crates/multiview-audio/src/truepeak.rs:52-59 | A silent, unprimed window. |
| `TruePeak.TruePeakDetector.Push` | crates/multiview-audio/src/truepeak.rs:62-95 | Shifts the window, and counts the loudest phase once primed. |
| `TruePeak.TruePeakDetector.PeakGainBound` | crates/multiview-audio/src/truepeak.rs:112-121 | The largest L1 norm of the phases. |
| `TruePeak.TruePeakDetector.PrimeTailInterleaved` | crates/multiview-audio/src/truepeak.rs:135-152 | The window becomes the channel's last samples, zero-padded. |
| `TruePeak.TruePeakDetector.ResetPeak` | crates/multiview-audio/src/truepeak.rs:163-165 | Clears the peak alone. |
| `TruePeak.TruePeakDetector.ScaleHistory` | crates/multiview-audio/src/truepeak.rs:178-182 | Scales every retained sample. |
| `TruePeak.GainBoundHolds` | crates/multiview-audio/src/truepeak.rs:112-121 | Every phase output is at most the gain bound times the loudest sample of its window. |
| `TruePeak.PeakScales` | crates/multiview-audio/src/truepeak.rs:178-182 | The peak of a scaled window is the scaled peak. |
| `TruePeak.PushedHistory` | crates/multiview-audio/src/truepeak.rs:62-95 | After any pushes the window is the newest samples over the older history. |
| `TruePeak.PeakCoversWindow` | crates/multiview-audio/src/truepeak.rs:62-95 | The running peak covers every window seen once primed. |
| `TruePeak.PrimingIsPushingIff` | crates/multiview-audio/src/truepeak.rs:135-152 | Priming leaves what pushing would exactly when the history it forgets was silent: always for twelve samples or more. |
| `TruePeak.PrimingCountsAsPushingIff` | crates/multiview-audio/src/truepeak.rs:135-152 | Priming counts as many samples as pushing exactly when there are none or they fill the detector. |
| `TruePeak.ScalingIsPushingScaledIff` | crates/multiview-audio/src/truepeak.rs:178-182 | Scaling afterwards is pushing scaled exactly when the older samples showing were silent, or the factor is one. |
| `TruePeakPhases.ConstantsReconstructIff` | crates/multiview-audio/src/truepeak.rs:203-247 | A phase gives a constant back, as said of each, exactly when its taps do not cancel. |
| `TruePeakPhases.HalfSamplePhaseIsSilent` | crates/multiview-audio/src/truepeak.rs:203-247 | The phase half-way between two samples has no tap that is not zero, so it never measures anything. |
| `TruePeakPhases.HalfSamplePhaseLosesConstants` | crates/multiview-audio/src/truepeak.rs:203-247 | Of any constant the first phase gives the constant, and the half-way one silence. |
| `TruePeakPhases.OddPhasesInterpolate` | crates/multiview-audio/src/truepeak.rs:203-247 | The other two mix the samples either side, so neither is a passthrough. |
| `TruePeakPhases.WindowClosesAtEnds` | crates/multiview-audio/src/truepeak.rs:228-231 | The window is zero at both ends of the prototype. |
| `TruePeakPhases.TapMirrorsIff` | crates/multiview-audio/src/truepeak.rs:211-235 | A tap equals its mirror image about the centre exactly when the sinc is zero there or the window is level from the tap before. |
| `Loudnorm.LoudnormProcessor.constructor` | crates/multiview-audio/src/loudnorm.rs:163-194 | Unity gain, one silent detector a channel, the gain bound cached. |
| `Loudnorm.LoudnormProcessor.TruePeakLimit` | crates/multiview-audio/src/loudnorm.rs:318-375 | Both paths: the attenuation and the history every detector is left with. |
| `Loudnorm.LoudnormProcessor.Measure` | crates/multiview-audio/src/loudnorm.rs:341-352 | One pass pushes every channel and finds the loudest point of any. |
| `Loudnorm.LoudnormProcessor.MeterBlock` | crates/multiview-audio/src/loudnorm.rs:251-258 | Feeds the block to the meter, bounds its history and reads the short-term loudness. |
| `Loudnorm.LoudnormProcessor.Process` | crates/multiview-audio/src/loudnorm.rs:251-290 | Same shape out; the block metered, the gain moved one smoothing step on that reading, each sample gained, attenuated and clamped. |
| `Loudnorm.InnerWindowsMeetTheCeiling` | crates/multiview-audio/src/loudnorm.rs:318-375 | On either path every filter window wholly inside the block, scaled by the attenuation, is at or below the ceiling. |
| `Loudnorm.HistoryIsOfTheEmittedIff` | crates/multiview-audio/src/loudnorm.rs:318-375 | The left-over history is that of pushing the attenuated block exactly when the older samples showing were silent or rightly kept: always for twelve frames or more. |
| `Loudnorm.BlocksAreMeasuredAlone` | crates/multiview-audio/src/loudnorm.rs:335-375 | What a block gets depends on the histories alone, not on the peaks held, and no peak is left over. |
| `Loudnorm.GainStaysInBand` | crates/multiview-audio/src/loudnorm.rs:251-266 | The applied gain never leaves -24..24 dB. |
| `Loudnorm.MakeupReachesTarget` | crates/multiview-audio/src/loudnorm.rs:251-266 | A bus measured within reach is brought to its target: the remaining shortfall is the initial one, decayed. |
| `Loudnorm.GainConverges` | crates/multiview-audio/src/loudnorm.rs:251-266 | Under a steady reading, or silence, the gap to the target shrinks by 0.85 a block. |
| `LoudnormLevel.AmplitudeIsDecibels` | crates/multiview-audio/src/loudnorm.rs:266-322 | The factor a level becomes is that level in decibels, for the gain and for the ceiling alike. |
| `LoudnormLevel.GainMovesLoudness` | crates/multiview-audio/src/loudnorm.rs:266-281 | Samples gained by a level carry energy that many units of loudness higher. |
| `LoudnormLevel.GainIsHeard` | crates/multiview-audio/src/loudnorm.rs:251-281 | Under a linear weighting, whatever is played reads that many units higher over any window, gated where that falls below the absolute gate. |
| `LoudnormLevel.SilenceRelaxesGain` | crates/multiview-audio/src/loudnorm.rs:258-266 | Over readings that are all gated, the gain decays toward none by 0.85 a block. |
| `LoudnormLevel.GainStopsAtTheBand` | crates/multiview-audio/src/loudnorm.rs:258-266 | A bus out of reach is drawn to 24 dB, or to -24, by the same decay. |
| `LoudnormLevel.HistoryIsBounded` | crates/multiview-audio/src/loudnorm.rs:251-258 | After any block at most 64 sub-blocks are held, the newest, and enough for the short-term window whenever there have been. |
| `LoudnormLevel.MakeupIsHeard` | crates/multiview-audio/src/loudnorm.rs:251-290 | A bus read within reach, played at the gain it has after any number of such readings, reads the target to within the decayed shortfall. |
| `LoudnormLevel.ScaledFrameHasSquaredEnergy` | crates/multiview-audio/src/loudness.rs:191-227 | A frame g times as loud has g squared times the weighted energy, and leaves the filters g times as far. |
| `LimiterSeam.SeamOvershootIsBounded` | crates/multiview-audio/src/loudnorm.rs:318-375 | A window across the seam passes the ceiling by at most the old samples' part the new attenuation did not reach; pre-screened, it stays below the larger of the ceiling and the gain bound times the history; while the detector still fills, only below the gain bound times the loudest sample in it. |
| `LimiterSeam.SeamMeetsCeilingIff` | crates/multiview-audio/src/loudnorm.rs:318-375 | Histories within m and blocks within s keep every seam window at the ceiling exactly when each phase's first n taps times s plus the rest times m do. |
| `LimiterSeam.ScreenedSeamsAreSafeIff` | crates/multiview-audio/src/loudnorm.rs:325-340 | Blocks quiet enough to be pre-screened emit only safe seams under exactly the same condition. |
| `LimiterSeam.LatePeakEscapes` | crates/multiview-audio/src/loudnorm.rs:318-375 | For every filter with a passthrough phase and small first taps, a full-scale last sample is emitted unattenuated and shown above any lower ceiling in the next block. |
| `LimiterStart.ShortStartIsUnlimited` | crates/multiview-audio/src/loudnorm.rs:318-375 | A fresh limiter never attenuates a first block of fewer than twelve frames. |
| `LimiterStart.StartIsSafeIff` | crates/multiview-audio/src/loudnorm.rs:318-375 | Such first blocks of n frames within s keep every window at the ceiling exactly when each phase's first n taps times s do. |
| `LimiterStart.EarlyPeakEscapes` | crates/multiview-audio/src/truepeak.rs:62-95 | A full-scale sample among the first eleven of a longer first block is emitted unattenuated too: it has left the passthrough tap before anything is measured. |
| `LimiterSeam.BuiltFilterLetsItEscape` | crates/multiview-audio/src/truepeak.rs:211-247 | The filter the detector builds is one of them, once its outermost taps are below the ceiling. |
| `Loudness.LoudnessMeter.constructor` | crates/multiview-audio/src/loudness.rs:131-161 | Fresh filters and an empty history. |
| `Loudness.LoudnessMeter.PushInterleaved` | crates/multiview-audio/src/loudness.rs:191-227 | A ragged buffer is refused; otherwise every frame is filtered, weighted and accumulated in order. |
| `Loudness.LoudnessMeter.RetainRecent` | crates/multiview-audio/src/loudness.rs:242-248 | Keeps the newest sub-blocks, at least one. |
| `Loudness.LoudnessMeter.WindowReading` | crates/multiview-audio/src/loudness.rs:253-291 | The absolute-gated loudness of the newest window. |
| `Loudness.LoudnessMeter.IntegratedLoudness` | crates/multiview-audio/src/loudness.rs:295-347 | Both gates over the 400 ms blocks. |
| `Loudness.LoudnessMeter.Range` | crates/multiview-audio/src/loudness.rs:357-400 | The percentile spread of the gated short-term values. |
| `Loudness.ChannelsWeigh` | crates/multiview-audio/src/loudness.rs:191-227 | A frame weighs the sum of its weighted squares: one each for mono, stereo and the front, 1.41 for the surrounds, none for the low-frequency channel. |
| `Loudness.PushesCompose` | crates/multiview-audio/src/loudness.rs:191-227 | How a stream is cut into pushes does not matter. |
| `Loudness.NothingIsLost` | crates/multiview-audio/src/loudness.rs:191-227 | Frames and weighted energy are conserved across sub-block boundaries. |
| `Loudness.RetentionKeepsReadingIff` | crates/multiview-audio/src/loudness.rs:242-261 | Bounding the history changes a window's reading exactly when the window is longer than what is kept and had enough audio. |
| `Loudness.RetentionNeverDisturbs` | crates/multiview-audio/src/loudness.rs:242-261 | Over every run of pushes and retentions that keep at least the window, it reads as if nothing had been dropped. |
| `Loudness.WindowIsLastSlide` | crates/multiview-audio/src/loudness.rs:253-261 | The streaming reading is the last of the sliding windows the range is taken over. |
| `Loudness.RelativeGateRaisesMean` | crates/multiview-audio/src/loudness.rs:328-346 | The relative gate never empties the set and never lowers its mean. |
| `Loudness.IntegratedIsBracketed` | crates/multiview-audio/src/loudness.rs:316-347 | Integrated loudness is present exactly when some block passes the absolute gate, is at least the loudness of the gated mean and at most the loudest block. |
| `Loudness.SortSorts` | crates/multiview-audio/src/loudness.rs:394-394 | The values are put in ascending order and none is lost. |
| `Loudness.PercentileIsMonotone` | crates/multiview-audio/src/loudness.rs:443-458 | Percentiles grow with the quantile and stay within the data. |
| `Loudness.PercentileClamps` | crates/multiview-audio/src/loudness.rs:443-458 | A quantile outside the unit range is read at its nearer end, and nothing reads as zero. |
| `Loudness.PercentileHitsElements` | crates/multiview-audio/src/loudness.rs:443-458 | A whole rank is the element itself; the extreme percentiles are the smallest and the largest value. |
| `Loudness.SubblockIsATenth` | crates/multiview-audio/src/loudness.rs:145-148 | Ten sub-blocks are a second, to the nearest frame each. |
| `Loudness.RangeIsNonNegative` | crates/multiview-audio/src/loudness.rs:357-400 | The range is present exactly when some 3 s window passes the absolute gate, and is never negative. |
| `LoudnessGates.ReadingPresentIff` | crates/multiview-audio/src/loudness.rs:253-291 | A window reading is there exactly when the window is full and audible, and is the loudness of its mean. |
| `LoudnessGates.IntegratedIsDoublyGated` | crates/multiview-audio/src/loudness.rs:295-347 | Integrated loudness is that of the mean over exactly the 400 ms blocks that are audible and at most 10 LU under the audible mean. |
| `LoudnessGates.RelativeGateActsIff` | crates/multiview-audio/src/loudness.rs:328-346 | It exceeds the loudness of the audible mean exactly when some audible block is more than 10 LU under it. |
| `LoudnessGates.RangeIsGatedSpread` | crates/multiview-audio/src/loudness.rs:357-400 | The range spans the 10th to the 95th percentile of the 3 s windows that are audible and at most 20 LU under the audible mean. |
| `LoudnessGates.TwoLevelRange` | crates/multiview-audio/src/loudness.rs:357-400 | A history that steps up by at most 20 LU, with enough of each level, ranges over exactly the step. |
| `Loudness.ShortTermSurvivesRetention` | crates/multiview-audio/src/loudnorm.rs:251-262 | The short-term reading the normaliser steers by is that of its whole run, though it bounds the history after every block. |
| `CommandDrain.CommandDrain.EnqueueVideoIntent` | crates/multiview-cli/src/control.rs:1439-1457 | Registers the key, mirrors the binding, sheds the oldest at the bound, queues the route. |
| `CommandDrain.CommandDrain.RouteVideoCommand` | crates/multiview-cli/src/control.rs:1779-1795 | A route to an unknown cell is ignored. |
| `CommandDrain.CommandDrain.TakeSalvo` | crates/multiview-cli/src/control.rs:1804-1831 | Queues every recall on a known cell and disarms; unnamed and unarmed, or unknown, does nothing. |
| `CommandDrain.CommandDrain.RouteCommand` | crates/multiview-cli/src/control.rs:1587-1685 | The routing and salvo commands. |
| `CommandDrain.CommandDrain.Apply` | crates/multiview-cli/src/control.rs:1384-1431 | Drains, then applies at most 32 queued routes in order, each held alone on an error. |
| `CommandDrain.DroppingFirstIff` | crates/multiview-cli/src/control.rs:1439-1457 | Dropping the oldest route leaves no trace exactly when a later one covers its cell or it was already shown. |
| `CommandDrain.EnqueueConvergesIff` | crates/multiview-cli/src/control.rs:1439-1457 | Queueing keeps the backlog folding to the mirror exactly when what it sheds was superseded or already shown. |
| `CommandDrain.UnregisteredRouteIff` | crates/multiview-cli/src/control.rs:1439-1457 | At any backlog, a route to an unregistered source leaves drive and mirror together exactly when what is shed for it did not matter and the backlog left has the cell show that source anyway. |
| `CommandDrain.CommandKeepsConverging` | crates/multiview-cli/src/control.rs:1587-1685 | Every routing or salvo command keeps it. |
| `CommandDrain.TickKeepsConverging` | crates/multiview-cli/src/control.rs:1384-1431 | A tick keeps it and takes at most 32 off the backlog. |
| `CommandDrain.RunsKeepConverging` | crates/multiview-cli/src/control.rs:1384-1831 | Over every run that sheds no last-of-its-cell route, the backlog folded over the drive is the mirror. |
| `CommandDrain.EightTicksConverge` | crates/multiview-cli/src/control.rs:1384-1431 | Eight ticks after the last command the drive shows the mirror. |
| `CommandDrain.BurstShedsALiveRoute` | crates/multiview-cli/src/control.rs:1439-1457 | 257 routes in one tick shed one nothing supersedes: its cell never shows what the config says. |
| `CommandIntent.RouteIsMirrored` | crates/multiview-cli/src/control.rs:1779-1795 | A route shows its source on its cell in the config at once and is queued last; one to an unknown cell changes nothing. |
| `CommandIntent.TakenSalvoIsMirrored` | crates/multiview-cli/src/control.rs:1804-1831 | Taking a known salvo, named or armed, puts every known cell it recalls on the input it last recalls to it, leaves the others, and disarms. |
| `CommandIntent.FruitlessTakeIsHeld` | crates/multiview-cli/src/control.rs:1804-1813 | A take of nothing known changes nothing. |
| `CommandIntent.ArmedIff` | crates/multiview-cli/src/control.rs:1654-1690 | What is armed after any commands is the salvo last armed and not taken or cancelled since. |
| `CommandIntent.MirrorIsLastCommanded` | crates/multiview-cli/src/control.rs:1439-1831 | After any commands the config shows on every cell the input last commanded for it, by route or by salvo. |
| `CommandIntent.CommandedIsShown` | crates/multiview-cli/src/control.rs:1384-1831 | Eight ticks after any run that sheds nothing live, so does the compositor. |
| `CommandDrain.CompositorDrive.RebindCell` | crates/multiview-engine/src/drive.rs:376-402 | An unknown cell or unregistered source is refused and holds the binding. |
| `LiveSources.OnlyItsOwnCompanions` | crates/multiview-cli/src/live_sources.rs:517-525 | A teardown covers the id and its `id/` companions; a key without the separator only if it is the id. |
| `LiveSources.StopRegistry.RegisterStop` | crates/multiview-cli/src/live_sources.rs:96-117 | Registers fresh flags, replacing a stale entry. |
| `LiveSources.StopRegistry.Raise` | crates/multiview-cli/src/live_sources.rs:524-547 | Removes exactly the covered entries and raises exactly their flags. |
| `LiveSources.StepKeepsInv` | crates/multiview-cli/src/live_sources.rs:379-579 | Every step whose exit wait does not time out keeps the hub's books. |
| `LiveSources.RunsKeepSingleWriter` | crates/multiview-cli/src/live_sources.rs:379-579 | Over every such interleaving a source never has two running producers. |
| `LiveSources.TeardownStopsExactly` | crates/multiview-cli/src/live_sources.rs:524-552 | Taking up a request raises exactly the covered producers' flags and changes nothing else. |
| `LiveSources.TeardownLeavesNoneRunning` | crates/multiview-cli/src/live_sources.rs:553-579 | A wait that ends in time leaves none of them running. |
| `LiveSources.AwaitedProducersCanLeave` | crates/multiview-cli/src/live_sources.rs:484-515 | Every latch still awaited belongs to a thread that has been asked to stop and can: a failed spawn never leaves one to wait on. |
| `LiveSources.SpawnAfterWaitIff` | crates/multiview-cli/src/live_sources.rs:384-414 | A spawn after the wait, synthetic or decoded, keeps one writer exactly when the old producer of that source has gone. |
| `LiveSources.BootIsSound` | crates/multiview-cli/src/live_sources.rs:96-117 | Start-up producers, each registered under its own key, are books to start from. |
| `LiveSources.TimedOutEditHasTwoWriters` | crates/multiview-cli/src/live_sources.rs:565-579 | A reachable edit whose wait times out has two writers on one store. |
| `LiveProgress.SpawnIsServed` | crates/multiview-cli/src/live_sources.rs:379-402 | From any sound state every spawn can be served, and then leaves exactly one running producer of its source, registered, owned and previewed, or none when it cannot launch or fails; the producers it replaces have gone and no other is touched. |
| `LiveProgress.TeardownIsServed` | crates/multiview-cli/src/live_sources.rs:403-406 | So can every teardown: none of the source's producers is left, registered, owned or previewed. |
| `LiveProgress.ThreadsCanLeave` | crates/multiview-cli/src/live_sources.rs:96-117 | Any set of producers can leave by steps of their own. |
| `LiveProgress.ShutdownStopsOwned` | crates/multiview-cli/src/live_sources.rs:407-414 | A shutdown raises the flags of exactly the producers the hub owns, and nothing is taken up after it. |
| `LiveProgress.SubmitIsBounded` | crates/multiview-cli/src/live_sources.rs:255-286 | A request waits last in the queue, unless 32 wait already. |

## Left out

- Floating-point rounding and f32 narrowing; saturation of 64- and 128-bit counters (numbers
  are unbounded; the slot generation's tombstone at its maximum is modelled).
- The zero-channel branches: every channel layout has one, two or six channels.
- `ArcSwap`, mutexes and their poisoning, sleeps and wall clocks: atomic steps and a
  "gave up waiting" choice instead. Allocation and reuse of scratch vectors.
- libav decoding and the ingest loops; the tone loop; captions; the K-weighting filter
  design; decibel read-outs of the detectors.
- In the mixer, un-routing, clearing a ramp, and the per-input discrete track; on the bus,
  the switch classification of a route change.
- In the control drain, applying layouts, sources, overlays, subtitles, audio routes, tally,
  transport and the events published; a layout change runs at once while earlier re-points
  are still queued, so the mirror theorem is about runs without one.
- In the hub, the picture stores and what producers draw; the preview registry is the set of
  ids it shows.
- PlayerAudio.FillOnce: asks for a store at the deck's format; both are the canonical format.
- Loudnorm.LoudnormProcessor.Process: the block is at the processor's format, which the source
  does not check.
- Loudness.LoudnessMeter.PushInterleaved: does not feed the optional true-peak detectors; the
  normaliser, the meter's live user, turns them off.
- Loudness.LoudnessMeter.Range: the library sort is an insertion sort shown to order its input
  and lose nothing.
- CommandDrain.CommandDrain.RouteCommand: only the video routing and salvo commands.
- LiveSources.RunsKeepSingleWriter: producers that predate the hub are registered before it
  starts, and a spawner registers its producer under the source id alone.
- BusShared.SharedCutIsHeard: stores at the bus format, as for the other theorems about what is
  heard, `BusCut` among them; `BusFormat` covers the rest.
- DeckTheorems.ExitTailFalls: crossfades of at most 2^32 - 1 frames, far above the loop cap; so
  too for `ArmedTailIsCosine`, `ArmedTailFallsStrictly`, `DeckTransport.ArmedRecuePlaysOnce` and
  `PlayerTransport.FollowedArmShape`, for `DeckBuild.SeamPhaseIsCentredIff`,
  `LinearSeamStaysInRangeIff`, `SeamHandsOver` and `SelfSeamIsTransparentIff` and, for its rise,
  `BusFade.CrossfadeDuringRiseIsSteplessIff`.
- PlayerRail.LaterReadsObeyTheExit: only reads move the cursor, from zero up; a re-point of the bus
  onto a player's store, which seeks it, is not among the steps.
- BusFormat.MismatchIsDroppedIff: one route at another format; `BusFormat.StaleBlockEmits` allows
  any number.
