# Verified model of the NoiseAI audio path

NoiseAI is a macOS noise canceller. An app captures the microphone, denoises it in an engine that works on frames of
480 samples, and writes the result into a ring buffer in POSIX shared memory. A virtual-microphone driver in another
process maps that segment and hands its samples to whichever client records from the microphone. This project models
that path in Dafny and proves what it keeps, over every run and every interleaving.

## How the project is laid out

| part | files | form |
|---|---|---|
| shared ring | `RingSpec`, `SharedRing`, `RingProtocol`, `RingTheorems`, `RingProgress` | a value with functions; the in-place classes proved against it; a machine that interleaves single shared accesses; theorems |
| engine | `Scheduler`, `Framing`, `EngineSpec`, `EngineClass`, `Averaging`, `EngineTheorems`, `Denoising`, `ModeChange` | overload scheduler; arithmetic of re-blocking for any frame size; the engine as a value; the in-place class; channels to mono; theorems over runs; the audio told by the denoisers alone; changes of mode |
| driver | `DriverSpec`, `IoHandler`, `DriverTheorems`, `FrozenRing` | the handler as a value; the in-place class; throttle, stale detection and recovery |
| app | `Lifecycle`, `Bridge` | who holds which segment and what the name leads to; the bridge and `AudioManager` as classes |
| all together | `Deliveries`, `SegmentLog`, `EndToEnd`, `ClientTheorems`, `History`, `Recovery` | a log of what the client got; every ring operation keeps it; the system machine; what the client hears; the state in terms of what was done; crash and restart |
| support | `Arith`, `Divisors`, `Samples`, `Wrappers` | modular arithmetic, greatest common divisors, silence and equal-channel audio, `Option` |

The classes (`SharedRing.SharedRingBuffer`, `SharedRing.SPSCRingBuffer`, `EngineClass.NoiseEngine`,
`IoHandler.IOHandler`, `Bridge.NoiseEngineContext`, `Bridge.AudioManager`) keep the fields, the loops and the two-chunk
copies of the source. Each method states its new state as a function of the old one; the theorems are about those
functions. The layers meet in these places:

- `RingTheorems.StepRefinesQueue` shows that every interleaving of shared accesses amounts to operations of a queue: a
  block joins it or is refused, samples leave it or the read is refused, a new connection discards up to some position.
  The system machine `EndToEnd` has exactly these operations, refusals on stale indices and delayed flushes included
  (`EndToEnd.CaptureIsEnqueue`, `EndToEnd.ReadIsDequeue`, `EndToEnd.FlushIsDiscard`, `EndToEnd.OtherStepsKeepQueues`), and
  lets the driver load any flag and heartbeat.
- `EngineTheorems.RunTracks` ties the engine to the counting model of `Framing`, `EngineTheorems.ScheduleGovernsAudio` and
  `EngineTheorems.RunFollowsSchedule` tie it to `Scheduler`.
- `Denoising.BatchIsIntended` says what every sample is in terms of the two denoisers, and `History.EngineFollowsHistory` what
  every setting is in terms of the calls made; neither names the functions the engine is specified with.
- `ClientTheorems.PartsMakeCallback` ties the interleaved parts of a driver callback, when nothing interrupts them, to the
  one that `IoHandler` implements.

The denoisers are uninterpreted stateful functions on frames of 480 samples; a failed DeepFilterNet run counts as a zero
frame. Whether an inference took longer than 8 ms is an oracle indexed by the chunk number since the last reset. Whether a
system call succeeds is a parameter (`works`, `loads`, `rnnoiseOk`). A load of the other side's ring index may return any
value stored there that is not older than the last one loaded. Samples are reals, positions are unbounded naturals.

## What turned out

- The ring can block for good exactly when read size plus write size exceeds capacity plus their greatest common divisor
  (`RingProgress.DeadlockReachableExactly`); the driver's stale detection then repairs it within 52 callbacks
  (`FrozenRing.BlockedRingRecovers`).
- A started engine is safe for every later callback size exactly when its lag is at least 479 samples
  (`Framing.SafeForAllSizesExactly`).
- `set_mode` clears the buffers and the model's state, but the overload counters and RNNoise's state survive it;
  `ModeChange.SetModeForgetsExactly` says exactly when that can be heard, `ClientTheorems.ReachableModeChange` says it of
  every engine the system can reach, and `ModeChange.EarlierTimingIsHeard` gives the shortest history in which it is.
- `noise_shm_create` builds the new buffer before the old one's destructor unlinks the shared name, so a second start
  without a stop in between leaves a recording that no driver can reach, even if the first start failed
  (`Lifecycle.RecordingReachableExactly`); the menu, which always stops in between, never gets there
  (`Lifecycle.MenuIsSafe`).

## Model

| member | source | states |
|---|---|---|
| `RingSpec.StoredAt` | engine/src/shared_ring_buffer.cpp:148-155 | each position of the written window finds its sample in its slot, every other slot is untouched |
| `RingSpec.SlotAfterWrite` | engine/src/shared_ring_buffer.cpp:148-157 | after an accepted write every unread position, old or new, finds its sample of the stream in its slot |
| `RingSpec.WriteRepresents` | engine/src/shared_ring_buffer.cpp:132-160 | a write that fits appends its whole block to the stream and to the unread samples and overwrites none of them; one that does not fit changes nothing |
| `RingSpec.ReadRepresents` | engine/src/shared_ring_buffer.cpp:166-185 | a read that succeeds hands out the stream from the old read position on and leaves the rest unread |
| `RingSpec.FlushRepresents` | engine/src/shared_ring_buffer.cpp:188-195 | a flush leaves nothing unread, puts the read position at the end of the stream and never behind where it was |
| `RingSpec.OwnSideOnly` | engine/src/shared_ring_buffer.cpp:119-195 | a write moves only the write side, and the heartbeat by one if it is accepted; a read or a flush moves only the read position |
| `RingSpec.RoundTrip` | engine/src/shared_ring_buffer.cpp:119-186 | first in, first out: after two writes a read of what was there after the first gives the older samples in order and leaves the second block |
| `SharedRing.CopyIn` | engine/src/shared_ring_buffer.cpp:152-154 | the copy loop replaces exactly the addressed stretch of the array |
| `SharedRing.ChunksStore` | engine/src/shared_ring_buffer.cpp:148-155 | the two chunks of a write, split at the end of the array, put every sample where the modular index says |
| `SharedRing.ChunksTake` | engine/src/shared_ring_buffer.cpp:175-182 | the two chunks of a read are the samples of the modular window in order |
| `SharedRing.StoreBlock` | engine/src/shared_ring_buffer.cpp:148-155 | the in-place two-chunk copy equals the modular specification |
| `SharedRing.TakeBlock` | engine/src/shared_ring_buffer.cpp:175-182 | the client's buffer gets the modular window and is unchanged behind it |
| `SharedRing.SharedRingBuffer.Create` | engine/src/shared_ring_buffer.cpp:25-45 | the producer's constructor: on success the name leads to a fresh, empty, active segment; on any failure it leads nowhere |
| `SharedRing.SharedRingBuffer.Open` | engine/src/shared_ring_buffer.cpp:45-75 | the consumer maps what the name leads to, or nothing |
| `SharedRing.SharedRingBuffer.Destroy` | engine/src/shared_ring_buffer.cpp:98-117 | a creator marks its segment inactive and unlinks the name even if it maps nothing; a consumer touches neither |
| `SharedRing.SharedRingBuffer.Write` | engine/src/shared_ring_buffer.cpp:119-160 | accepted exactly if the block fits; then array, position and heartbeat as specified, else nothing changes |
| `SharedRing.SharedRingBuffer.Read` | engine/src/shared_ring_buffer.cpp:162-186 | succeeds exactly if enough is unread; then the oldest samples are in the client's buffer, else that is unchanged |
| `SharedRing.SharedRingBuffer.Flush` | engine/src/shared_ring_buffer.cpp:188-195 | the mapped ring becomes its flushed value |
| `SharedRing.SharedRingBuffer.AvailableRead` | engine/src/shared_ring_buffer.cpp:197-203 | 0 without a mapping, else the largest size a read would accept, which is the number of unread samples |
| `SharedRing.SharedRingBuffer.AvailableWrite` | engine/src/shared_ring_buffer.cpp:205-211 | 0 without a mapping, else the largest size a write would accept |
| `SharedRing.SPSCRingBuffer.Write` | engine/src/ring_buffer.cpp:17-38 | the in-process ring writes like the shared one |
| `SharedRing.SPSCRingBuffer.Read` | engine/src/ring_buffer.cpp:40-61 | the in-process ring reads like the shared one |
| `SharedRing.SPSCRingBuffer.Reset` | engine/src/ring_buffer.cpp:77-81 | with both sides at rest, a reset puts both positions to 0, leaves the array as it was and nothing unread |
| `RingProtocol.CopySlotIsModular` | engine/src/shared_ring_buffer.cpp:148-155 | the slot the chunked copy uses for its k-th sample is position plus k modulo the capacity, inside the array |
| `RingProtocol.CopyInMisses` | engine/src/shared_ring_buffer.cpp:136-155 | a sample copied in, even on the strength of a stale read index, never lands on an unread slot |
| `RingProtocol.NextInv` | engine/src/shared_ring_buffer.cpp:81-195 | every single shared access of either side keeps the invariant of the protocol |
| `RingProtocol.RunInv` | engine/src/shared_ring_buffer.cpp:81-195 | the invariant holds after every interleaving from a zeroed mapping on |
| `RingTheorems.EveryInterleaving` | engine/src/shared_ring_buffer.cpp:132-185 | under every interleaving and with stale index loads: read position, write position and capacity stay ordered, every unread slot holds the accepted stream, the regions being copied are disjoint |
| `RingTheorems.CopiesStayInBounds` | engine/src/shared_ring_buffer.cpp:148-182 | no copy step divides by a capacity of zero or leaves the mapping |
| `RingTheorems.ReadReturnsStream` | engine/src/shared_ring_buffer.cpp:166-185 | a read under any interleaving gives exactly the accepted samples from its start on |
| `RingTheorems.ConnectionIsSlice` | driver/src/io_handler.cpp:64-81 | all that is read through one connection is one slice of the accepted stream that starts at the flush point |
| `RingTheorems.SafePublication` | engine/src/shared_ring_buffer.cpp:81-91 | whoever sees `active = 1`, at any point of the header's initialisation, finds the final positive capacity; both indices are 0 until the first block |
| `RingTheorems.CapacityIsFinal` | engine/src/shared_ring_buffer.cpp:81-91 | once it is stored the capacity never changes again |
| `RingTheorems.StepRefinesQueue` | engine/src/shared_ring_buffer.cpp:119-195 | each shared access is invisible to an abstract queue of whole blocks or is exactly one of its operations |
| `RingTheorems.UninterruptedWrite` | engine/src/shared_ring_buffer.cpp:119-160 | the small steps of a write that nobody interrupts amount to the atomic write |
| `RingTheorems.UninterruptedRead` | engine/src/shared_ring_buffer.cpp:162-186 | the small steps of a read that nobody interrupts amount to the atomic read |
| `RingTheorems.ClientsGetWholeFrames` | driver/src/io_handler.cpp:92-95 | in every interleaving with two-channel blocks and whole-frame reads, positions stay even and every delivery is equal-channel frames, for any capacity |
| `RingProgress.NeverStuck` | engine/src/shared_ring_buffer.cpp:136-173 | read size plus write size at most capacity plus their greatest common divisor: one side can always move |
| `RingProgress.DeadlockReachableExactly` | engine/src/shared_ring_buffer.cpp:136-173 | some sequence of writes, reads and flushes blocks both sides if and only if the sizes exceed that bound |
| `RingProgress.SafeSizes` | engine/src/shared_ring_buffer.cpp:136-173 | sizes that sum to at most capacity + 1 are safe, + 2 if both are even |
| `Scheduler.AtRest` | engine/src/engine.cpp:224-240 | outside overload the count is below five and no cooldown is left |
| `Scheduler.EntersExactly` | engine/src/engine.cpp:325-338 | passthrough starts exactly after five consecutive slow inferred chunks |
| `Scheduler.RunsExactly` | engine/src/engine.cpp:225-235 | a passthrough run lasts exactly 100 chunks |
| `Scheduler.SchedulerMeetsSpec` | engine/src/engine.cpp:224-240 | for every timing trace the counters produce the schedule described by the trace alone |
| `Scheduler.ScheduleIsUnique` | engine/src/engine.cpp:224-240 | there is only one such schedule |
| `Scheduler.FiveInferredAfterRun` | engine/src/engine.cpp:236-240 | at least five inferred chunks follow a passthrough run |
| `Scheduler.AtMostHundredOf105` | engine/include/noise/engine.h:89-91 | any 105 consecutive chunks contain at most 100 passthrough chunks |
| `EngineTheorems.ScheduleGovernsAudio` | engine/src/engine.cpp:224-240 | from `init` on, chunk k of the output is chunk k of the input when the schedule passes it through, and the denoised chunk otherwise |
| `EngineTheorems.RunFollowsSchedule` | engine/src/engine.cpp:321-338 | after any run of callbacks since `init` the engine's counters are where the timing trace puts them |
| `EngineTheorems.AtMostHundredEscape` | engine/include/noise/engine.h:89-91 | of any 105 consecutive chunks that a run was given at most 100 escape the denoiser |
| `Denoising.InferOne` | engine/src/engine.cpp:245-319 | one inference: answer and new recurrent state of the denoiser that runs, dry share mixed in, nothing else touched |
| `Denoising.PassedFromCalm` | engine/src/engine.cpp:185-188 | from `init` on the schedule is the one that `Scheduler` characterises |
| `Denoising.BatchIsIntended` | engine/src/engine.cpp:215-343 | sample j of chunk k is the input if passed through, 1/32768 of RNNoise's answer to the amplified chunk, or wet and dry shares of the model's answer, each in the state folded over the earlier inferred chunks |
| `Denoising.HeardIsBounded` | engine/src/engine.cpp:386-392 | every sample a run gives out lies in -1 .. 1, and is the batch sample or, where that lies outside, the nearer bound |
| `Denoising.HeardIsIntended` | engine/src/engine.cpp:215-407 | both together, for every sample of every run of callbacks after a reset |
| `Framing.SoundsExactly` | engine/src/engine.cpp:374-404 | after prefill a call gets audio exactly if the lag covers the incomplete frame; only silent calls change the lag |
| `Framing.NeverUnderrunsAgain` | engine/src/engine.cpp:374-404 | with a lag of at least 479 every later call of any size gets audio at a constant lag |
| `Framing.SafeForAllSizesExactly` | engine/src/engine.cpp:374-404 | that bound on the lag is necessary as well |
| `Framing.NoUnderrunAfterPrefill` | engine/src/engine.cpp:18-24 | if the call that completes the prefill has at most f + 1 frames, it and all later ones get audio with one delay in f - 1 .. 2f - 1 |
| `Framing.PrefillBoundIsTight` | engine/src/engine.cpp:374-404 | sizes f - 2, f + 2, f - 1 underrun |
| `Framing.ConstantSizeNeverUnderruns` | engine/src/engine.cpp:374-404 | with one callback size, whatever it is, every call after the prefill gets audio |
| `Framing.ConstantSizeStaysSound` | engine/src/engine.cpp:374-404 | with one callback size, once a call gets audio all later ones do |
| `Framing.BoundedGlitches` | engine/src/engine.cpp:385-404 | at most f - 1 calls are silent from the completion of the prefill on |
| `Framing.BoundedMemory` | engine/src/engine.cpp:395-400 | the output buffer stays below 4f + m between calls of at most m frames |
| `Framing.ReservedIsEnough` | engine/src/engine.cpp:179-181 | with 128 frames a call neither buffer exceeds the reserved 1920 samples, even within a call |
| `EngineSpec.DrainShape` | engine/src/engine.cpp:369-372 | the processing loop leaves less than one frame and only appends to the output |
| `EngineSpec.EveryChannelAlike` | engine/src/engine.cpp:386-391 | every channel of an output frame carries the same sample |
| `Averaging.StereoIsHalved` | engine/src/engine.cpp:359-367 | twice the mono sample is left plus right |
| `Averaging.ChannelsCommute` | engine/src/engine.cpp:359-367 | rearranging samples within their frames changes nothing, for any number of channels |
| `Averaging.MonoAdds` | engine/src/engine.cpp:359-367 | mixing two inputs before or after the average is the same |
| `Averaging.MonoOfInterleaved` | engine/src/engine.cpp:361-391 | what the last step spreads over the channels the first step takes back |
| `EngineTheorems.BatchInTwo` | engine/src/engine.cpp:369-372 | batch processing in two goes equals one go, states included |
| `EngineTheorems.DrainIsBatch` | engine/src/engine.cpp:369-372 | the loop of a callback is the batch transform of what waits in the input buffer |
| `EngineTheorems.CallTracks` | engine/src/engine.cpp:345-407 | one callback keeps cores, buffers and audio in step with the batch transform and the counting model, compaction included |
| `EngineTheorems.RunTracks` | engine/src/engine.cpp:345-407 | so does every run from a reset on |
| `EngineTheorems.AudioIsPrefixOfBatch` | engine/src/engine.cpp:359-406 | for any callback sizes the audio given out is a prefix of the clamped, chunkwise denoised input |
| `EngineTheorems.SplittingIsIrrelevant` | engine/src/engine.cpp:359-406 | two ways of cutting inputs that share a prefix into callbacks agree on their common audio |
| `EngineTheorems.Conservation` | engine/src/engine.cpp:369-404 | input = audio given out + waiting output + waiting input; waiting input = total mod 480; the cursor is at most 960 and inside the buffer |
| `EngineTheorems.AllAudioOrAllSilence` | engine/src/engine.cpp:385-404 | every callback is answered as a whole, with audio exactly when the counting model says so |
| `EngineTheorems.NoUnderrun` | engine/src/engine.cpp:374-404 | the engine itself: a completing call of at most 481 frames and all calls after it get audio, delay constant in 479 .. 959 |
| `EngineTheorems.OutputStaysBounded` | engine/src/engine.cpp:395-400 | at most 1919 + m output samples between callbacks of 1 to m frames |
| `EngineTheorems.NoReallocation` | engine/src/engine.cpp:179-181 | callbacks of 128 frames never outgrow the reserved capacity, even mid-call |
| `EngineTheorems.SilenceThenAudio` | engine/src/engine.cpp:374-404 | with one callback size the answers are silence, then gapless audio |
| `EngineTheorems.ControlsKeepAttenuation` | engine/src/engine.cpp:123-134 | every control call leaves a loaded model with the attenuation limit that the settings ask for |
| `EngineTheorems.ProcessKeepsAttenuation` | engine/src/engine.cpp:215-343 | processing audio does not touch the limit |
| `EngineTheorems.InitForgets` | engine/src/engine.cpp:145-192 | after `init` two engines with equal settings are equal in every field, whatever they processed before |
| `ModeChange.BatchAlike` | engine/src/engine.cpp:409-429 | cores that differ only in what can never be heard produce equal audio |
| `ModeChange.OutlooksSeparate` | engine/src/engine.cpp:224-240 | overload counters with different outlooks pass different chunks through |
| `ModeChange.SetModeForgetsExactly` | engine/src/engine.cpp:409-429 | after a change of mode two engines with equal settings answer alike, for all denoisers, inputs and timings, if and only if overload outlook and, where used, RNNoise state agree, or the dry mix is 1 |
| `ModeChange.ControlsKeepSettled` | engine/src/engine.cpp:123-134 | every control call keeps the model's limit current and the count of slow inferences below five |
| `ModeChange.ProcessKeepsSettled` | engine/src/engine.cpp:325-338 | so does every callback |
| `ModeChange.EarlierTimingIsHeard` | engine/src/engine.cpp:409-429 | two new engines, the same calls and input, one slow chunk before the change of mode: afterwards they can be told apart |
| `EngineClass.NoiseEngine.constructor` | engine/src/engine.cpp:68-72 | a new engine is stopped, in balanced mode, with no denoiser |
| `EngineClass.NoiseEngine.Denoise` | engine/src/engine.cpp:245-319 | one frame through the denoiser that mode and model select, mixed or scaled as specified |
| `EngineClass.NoiseEngine.ProcessMonoChunk` | engine/src/engine.cpp:215-343 | all three branches: one frame leaves the input, one joins the output, counters step |
| `EngineClass.NoiseEngine.TakeIn` | engine/src/engine.cpp:359-367 | the channel average of every frame joins the input buffer |
| `EngineClass.NoiseEngine.ProcessCompleteFrames` | engine/src/engine.cpp:369-372 | the loop computes the specified drain |
| `EngineClass.NoiseEngine.GiveOut` | engine/src/engine.cpp:374-404 | prefill, clamp, interleave, cursor and compaction as specified; nothing behind the block is written |
| `EngineClass.NoiseEngine.ProcessFrame` | engine/src/engine.cpp:345-407 | refuses exactly when not running; else new state and output are those of the specified callback |
| `EngineClass.NoiseEngine.Init` | engine/src/engine.cpp:145-192 | the new state of `init`, its failing branch included |
| `EngineClass.NoiseEngine.Shutdown` | engine/src/engine.cpp:194-213 | the state after `shutdown`; the model stays loaded |
| `EngineClass.NoiseEngine.SetMode` | engine/src/engine.cpp:409-429 | the new state of `set_mode`; counters and RNNoise state stay |
| `EngineClass.NoiseEngine.SetAttenuationLimit` | engine/src/engine.cpp:458-465 | the override is stored and applied to a loaded model |
| `EngineClass.NoiseEngine.SetDryMix` | engine/src/engine.cpp:446-451 | the override is stored |
| `EngineClass.NoiseEngine.LoadModel` | engine/src/engine.cpp:107-121 | the new state after loading a model by path, whether it loads or not |
| `History.EngineFollowsHistory` | engine/src/engine.cpp:409-465 | in every run of the system: mode, overrides and status are those last asked for since the latest launch; a model is there exactly if one was loaded, under the limit in force |
| `History.InitStartsClean` | engine/src/engine.cpp:155-191 | `init` leaves new denoiser states, empty buffers and the scheduler at rest |
| `History.FailedInitKeepsRest` | engine/src/engine.cpp:147-161 | a failed `init` leaves buffers, settings and model as they were |
| `History.ShutdownIsQuiet` | engine/src/engine.cpp:194-213 | `shutdown` leaves nothing to hear and a loaded model with its state wiped, all settings kept |
| `History.SetModeStartsClean` | engine/src/engine.cpp:409-429 | a change of mode empties the buffers and wipes the model's state; asking for the present mode does nothing |
| `History.SettingsKeepAudio` | engine/src/engine.cpp:446-465 | the setters take effect without touching the audio or the model's recurrent state |
| `History.LoadStartsClean` | engine/src/engine.cpp:92-121 | a model that loads starts blank and under the limit in force; the buffers keep what they hold |
| `DriverTheorems.EveryRun` | driver/src/io_handler.cpp:43-170 | in every run of starts, stops and callbacks: connected means no countdown, countdown at most 47, stale count below 50, `was_connected_` says whether a buffer is held after a callback |
| `DriverTheorems.AttemptsExactly` | driver/src/io_handler.cpp:48-59 | while nothing can be opened, attempts come exactly every 6 callbacks, every 48 once connected in the session |
| `DriverTheorems.ConnectsAfterCountdown` | driver/src/io_handler.cpp:43-82 | a disconnected driver is connected as soon as its countdown is over and an active segment is there |
| `DriverTheorems.InactiveIsDropped` | driver/src/io_handler.cpp:118-130 | a producer seen inactive is dropped in that callback, whatever its heartbeat does, nothing of it is remembered, and the next callback opens the name again |
| `DriverTheorems.DroppedExactlyWhenDead` | driver/src/io_handler.cpp:118-153 | a connection ends in exactly the first callback that sees the flag down or completes fifty equal heartbeats |
| `DriverTheorems.UnderrunFlag` | driver/src/io_handler.cpp:155-169 | a callback that keeps its connection remembers whether audio was short |
| `DriverTheorems.StartsAnew` | driver/src/io_handler.cpp:11-30 | after a start with nothing to open the attempts come in callbacks 5, 11, 17, ..., whatever the session before |
| `DriverTheorems.StartsOnNew` | driver/src/io_handler.cpp:11-30 | a start with something to open is on it, with nothing counted yet |
| `DriverTheorems.StopsIdle` | driver/src/io_handler.cpp:32-41 | a stop leaves no mapping; the next callback tries again, and then every 48th if the session had ever connected, else every 6th |
| `DriverTheorems.LiveProducerIsKept` | driver/src/io_handler.cpp:132-153 | a producer whose heartbeat changes within every 50 callbacks is never dropped |
| `DriverTheorems.FrozenIsDropped` | driver/src/io_handler.cpp:132-153 | whatever was counted before, a frozen heartbeat ends the connection within 51 callbacks, and the next callback tries again |
| `DriverTheorems.DeadProducerIsDropped` | driver/src/io_handler.cpp:132-153 | a dead producer is dropped 51 callbacks after connecting, 50 if its heartbeat stands at 0 |
| `DriverTheorems.RecoversWithin52` | driver/src/io_handler.cpp:43-153 | for traces of what callbacks find: with the dead segment frozen and the new one served, the driver is on the new one from the 52nd callback on |
| `DriverTheorems.RecoveryBoundIsTight` | driver/src/io_handler.cpp:132-153 | 51 callbacks are not enough |
| `FrozenRing.BlockedRingRecovers` | driver/src/io_handler.cpp:135-153 | both sides blocked, any number of write attempts between callbacks: within 52 callbacks the driver drops, reconnects and flushes, and the next write succeeds; until then the ring is unchanged |
| `IoHandler.IOHandler.EnsureConnected` | driver/src/io_handler.cpp:43-82 | throttle, open and flush on connect as specified; the segment is flushed exactly if the connection is new |
| `IoHandler.IOHandler.OnStartIO` | driver/src/io_handler.cpp:11-30 | any mapping is given up, all fields are reset, one attempt is made |
| `IoHandler.IOHandler.OnStopIO` | driver/src/io_handler.cpp:32-41 | the mapping is given up; that the session once connected is remembered |
| `IoHandler.IOHandler.CheckProducer` | driver/src/io_handler.cpp:109-153 | activity and heartbeat checks as specified |
| `IoHandler.IOHandler.Deliver` | driver/src/io_handler.cpp:155-169 | whole frames from the ring, or all silence on an underrun |
| `IoHandler.IOHandler.OnReadClientInput` | driver/src/io_handler.cpp:84-170 | a whole callback: new fields, new ring and the client's buffer, silent unless a checked producer has enough |
| `Lifecycle.CreateReachableExactly` | bridge/src/noise_bridge.cpp:193-194 | after a successful create the name leads to the new segment exactly when nothing was held before |
| `Lifecycle.NameFollowsHeld` | engine/src/shared_ring_buffer.cpp:98-117 | in every run that creates only when nothing is held, the name leads to what is held, which is active; cleanly released segments are inactive |
| `Lifecycle.RecordingReachableExactly` | app/Sources/App/AudioManager.swift:171-227 | for every history of starts, stops, switches and relaunches: the recording, on an active segment of 9600 samples, can be reached exactly if it was not started on top of a buffer object |
| `Lifecycle.MenuIsSafe` | app/Sources/Views/MenuBarView.swift:31-41 | with a stop between any two starts every recording can be reached, whatever failed before |
| `Lifecycle.SecondStartIsUnreachable` | bridge/src/noise_bridge.cpp:193-194 | a failed start and then a successful one: recording, and no name |
| `Bridge.NoiseEngineContext.constructor` | bridge/src/noise_bridge.cpp:17-26 | a context has a newly constructed engine on which `init` was called, and no buffer |
| `Bridge.NoiseEngineContext.EngineStart` | bridge/src/noise_bridge.cpp:38-49 | `init` with two channels |
| `Bridge.NoiseEngineContext.ProcessAndWrite` | bridge/src/noise_bridge.cpp:129-179 | no mapped buffer: the engine does not even run; else the whole answered block is written or dropped |
| `Bridge.NoiseEngineContext.ShmCreate` | bridge/src/noise_bridge.cpp:183-197 | capacity, fresh empty segment, the old one inactive, and what the name leads to |
| `Bridge.NoiseEngineContext.ShmDestroy` | bridge/src/noise_bridge.cpp:199-204 | the segment goes inactive and the name leads nowhere, if there was a buffer object |
| `Bridge.AudioManager.Start` | app/Sources/App/AudioManager.swift:171-196 | segment first, then engine; a failed segment leaves engine and device as they were |
| `Bridge.AudioManager.Stop` | app/Sources/App/AudioManager.swift:198-218 | engine shut down, buffer released |
| `Bridge.AudioManager.SwitchDevice` | app/Sources/App/AudioManager.swift:221-227 | after a switch of a recording manager the name leads to what it holds |
| `Bridge.AudioManager.InputCallback` | app/Sources/App/AudioManager.swift:62-104 | at most 4096 frames are processed and offered to the ring |
| `Deliveries.ConnectionHearsSlice` | driver/src/io_handler.cpp:64-81 | a well-formed log: what one connection delivers is contiguous from its flush point on |
| `SegmentLog.WriteKeeps` | bridge/src/noise_bridge.cpp:167-168 | a write, accepted or not, keeps rings, streams and log in agreement |
| `SegmentLog.ConnectKeeps` | driver/src/io_handler.cpp:73-76 | so does a connect with its flush |
| `SegmentLog.ReadKeeps` | driver/src/io_handler.cpp:155-169 | so does a read |
| `EndToEnd.NextKeeps` | bridge/src/noise_bridge.cpp:129-204 | every step of the whole system keeps its invariant, with writes and reads refused on stale indices, flushes stored late, and any flag and heartbeat seen |
| `EndToEnd.CaptureIsEnqueue` | engine/src/shared_ring_buffer.cpp:132-160 | a capture is exactly the queue's whole-block enqueue or its refusal |
| `EndToEnd.ReadIsDequeue` | engine/src/shared_ring_buffer.cpp:166-185 | a driver read is exactly the queue's dequeue or its refusal |
| `EndToEnd.FlushIsDiscard` | engine/src/shared_ring_buffer.cpp:188-195 | a flush is exactly the queue's discard, up to any position loaded earlier |
| `EndToEnd.OtherStepsKeepQueues` | bridge/src/noise_bridge.cpp:183-204 | no other step, crashes included, changes the queue of any segment |
| `ClientTheorems.PartsMakeCallback` | driver/src/io_handler.cpp:84-170 | the interleavable parts of a driver callback together: its fields, the ring flushed and read, and exactly the connection made and the samples delivered |
| `ClientTheorems.ClientHearsEngine` | driver/src/io_handler.cpp:64-81 | in every run, crashes, restarts, reconnects and stale loads included: what a connection delivers is one contiguous slice, from the flush point on, of the engine's accepted blocks |
| `ClientTheorems.NothingTwiceAndWholeFrames` | driver/src/io_handler.cpp:155-169 | across reconnects nothing is delivered twice or out of order, and only whole frames with equal channels |
| `ClientTheorems.WholeBlockOrNone` | bridge/src/noise_bridge.cpp:155-178 | a capture adds its whole block to the held segment or drops exactly that block; the engine moves on either way and other segments do not notice |
| `ClientTheorems.OfferedAudioIsBatch` | bridge/src/noise_bridge.cpp:155-168 | the audio offered since the last reset is a prefix of the batch transform of what was captured |
| `ClientTheorems.ClientHearsMicrophone` | bridge/src/noise_bridge.cpp:129-179 | one callback size and every block accepted: the client hears a gapless stretch of the denoised microphone on both channels, late by one fixed delay |
| `ClientTheorems.EachSampleHeard` | bridge/src/noise_bridge.cpp:129-179 | the same sample by sample: silence while the delay lasts, then what the denoisers answer for half of left plus right, clipped to -1 .. 1 |
| `ClientTheorems.ClientHearsKeptMicrophone` | bridge/src/noise_bridge.cpp:129-179 | one callback size, blocks dropped and older audio in the segment: the client hears a slice of the older audio followed by that microphone with exactly the dropped blocks cut out |
| `ClientTheorems.ReachableModeChange` | engine/src/engine.cpp:409-429 | for engines after any two runs of the system: a change to the same other mode makes them answer alike exactly when the memory it leaves agrees |
| `ClientTheorems.SomethingIsHeard` | bridge/src/noise_bridge.cpp:129-179 | a concrete run meets the conditions of `ClientHearsMicrophone`: two frames go in and the client hears both |
| `Recovery.FiftyTwoCallbacksSuffice` | driver/src/io_handler.cpp:43-153 | in the whole system, from any state in which the app is on a new segment and the driver is not: once 52 callbacks have started the driver is on it and stays, as long as the app keeps writing |
| `Recovery.CrashAndRelaunch` | engine/src/shared_ring_buffer.cpp:25-30 | a crash and the next launch, wherever they strike, leave such a state and the dead segment untouched |
| `Recovery.StoppedProducerIsDropped` | driver/src/io_handler.cpp:118-130 | an uninterrupted callback that finds the flag down leaves rings and log as they are and wants to open again |
| `Recovery.CleanRestart` | bridge/src/noise_bridge.cpp:183-204 | after a clean destroy and a new create the first callback drops the old segment without another sample from it and the second is on the new one |
| `History.HeadersFollowHistory` | engine/src/shared_ring_buffer.cpp:81-117 | in every run a segment's heartbeat is the number of blocks it accepted, and its flag is up exactly while it is held or if its producer died holding it |

## Left out

- IEEE-754: samples are reals, so rounding, infinities and NaN are not modelled.
- Positions, heartbeat and counters are unbounded; the wrap of 64-bit positions, at which `w % cap` jumps, and the 32-bit narrowing of the capacity in the header are not modelled. `cap - (w - r)` never goes below zero in any reachable state, so its unsigned wrap cannot be seen.
- Weak memory goes no further than stale, monotone loads of the other side's index; `active`, `capacity` and `heartbeat` are read and written as single atomic values in program order.
- Engine calls are serialised: the source has no lock between the user-interface thread and the audio callback.
- The settings that change the transform (dry mix, attenuation limit, a model load) end the stretch over which `EndToEnd` keeps the batch claim, until the next reset.
- Recovery.FiftyTwoCallbacksSuffice: the driver's checks see the current flag and heartbeat, and opening the name succeeds; safety needs neither.
- Framing and engine theorems cover runs in which no setting changes after the reset.
- Real system calls, permissions, mapping sizes and file descriptors: only the name, the segments behind it and success or failure are modelled. Only one name exists.
- SharedRing.SharedRingBuffer.Create: does not take a capacity of zero, with which an empty write would divide by zero, and initialises the header in one go; the order of its stores is modelled in `RingProtocol`.
- SharedRing.SharedRingBuffer.Open: does not meet a segment whose header is not yet written; that is modelled in `RingProtocol`.
- Bridge.NoiseEngineContext.ShmCreate: does not take a format that gives a capacity of zero.
- SharedRing.SPSCRingBuffer.Reset: only with both sides at rest.
- EngineClass.NoiseEngine.ProcessFrame: the branch for an engine without any denoiser is dead, because a running engine always has RNNoise.
- EngineClass.NoiseEngine.Init: a path search that finds no model file and a model file that fails to load are one case.
- `noise_engine_destroy` and the getters are left out, and so is a model path that names no file, which changes nothing.
- RNNoise, ONNX Runtime and the internals of the DeepFilterNet wrapper are uninterpreted functions; the model object is a field with a value, and the speech probability is ignored.
- The overload counters are grouped in one value, and a chunk counter exists only to index the timing oracle; logging, levels and wall-clock time are left out.
- IoHandler.IOHandler.OnReadClientInput: byte counts are multiples of four, and callbacks of several clients are serialised.
- Audio-unit set-up, device enumeration, preferences, the user interface beyond its call order, the installer, and the stub files (resampler, STFT, post-processing) would add only easy members.
