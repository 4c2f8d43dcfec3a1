# wspr-recorder: verified models

This project models the parts of wspr-recorder that carry state, arithmetic or
concurrency, and proves what they promise.  `dafny verify dfyconfig.toml` checks all of it.

* **Capture** (`Arith`, `Audio`, `RingModel`, `RingBuffer`, `SyncStrategy`, `Slots`,
  `RingRaces`, `Requests`, `CaptureModel`, `CaptureGrid`, `CaptureLaws`,
  `CaptureEpochs`, `CaptureRuns`, `CaptureSlots`, `CaptureClock`, `BandRecorder`). A stream indexed by
  32-bit RTP time (the timestamp field of section 5.1 of RFC 3550) is unwrapped, cut at
  a UTC minute, written minute by minute into a ring, and harvested into period-aligned
  windows whose place follows a UTC anchor that may move. `CaptureModel` gives the
  recorder as a function of its inputs, an epoch being the time from one reset to the
  next; `CaptureLaws` to `CaptureClock` prove what every run amounts to, epoch by epoch,
  in terms of that epoch's own RTP times and anchor readings. `RingBuffer`,
  `RtpSyncStrategy` and `BandRecorder` are classes with the source's fields, each method
  proved to do what the model says. `Recorder.Capture` joins the two, over any number of
  batches of any size, any anchor values, any watchdog faults and any resets from
  outside.
* **Decode pool** (`DecodePool`).  One atomic step per region held under the condition
  variable, any number of workers, single `notify()`, spurious wake-ups, a draining
  shutdown.  `Pool.PriorityDecodePool` refines the step machine method by method.
* **Cycle batcher** (`BatcherModel`, `BatcherLaws`, `BatcherRuns`, `CycleBatcher`).
  Producers and the writer in any interleaving: conservation of spots, when a batch
  leaves, when the uploader is woken, how often a cycle is flushed.
* **Decode health** (`HealthModel`, `HealthReplay`, `DecodeHealth`).  The late-run ledger
  defined from the history of outcomes, and the offline log reader that must agree with it.
* **Round trips** (`WavFile`, `ReporterId`).  The float WAV writer against the RIFF reader,
  and the three spellings of a reporter id.

Outside inputs are parameters: radiod's live UTC for the anchor sample is
`anchorTape(k)` at the k-th reading (None means the frozen anchor is used), a watchdog's
request for a re-sync is `faultTape(k)` at the k-th minute boundary, the correlation UTC is
`referenceMicros`, and clocks are arguments.  Times are exact rationals where the source
has floats; rounding is Python's, half to even.  A float32 sample is four opaque bytes.

Where the source and its own text disagree the code is followed:

* `CycleBatcher`'s docstring (wspr_recorder/spot_sink.py:749) says a cycle is flushed
  exactly once.  A request that comes after its batch was taken opens a new one;
  `LateRequestFlushesAgain` gives the events and `FlushedOncePerOpening` the exact count.
* `set_expected_rx_sources` promises one wake per cycle (wspr_recorder/spot_sink.py:1018-1024);
  reconfiguring forgets which cycles were woken, so the promise is proved between two calls.
  A backstop wake the writer already holds when the call comes is still made, and
  `PendingWakeComesOnTop` gives the events; `NeverWokenTwice` counts it.
* The decode ledger's text says a draining burst never trips BEHIND
  (wspr_recorder/decode_health.py:21-23).  With a sustain count of one its first late
  decode already does; `DrainingNeverReports` holds for every sustain count and says when.
* `shutdown(cancel_futures=True)` with jobs queued raises, because its loop unpacks six
  names from entries of seven fields (wspr_recorder/decode_pool.py:168); the flag is then
  set and nobody is woken.  `HalfShutdownKeepsInv` says when that does no harm.
* The comment at wspr_recorder/band_recorder.py:305-309 speaks of 120 s of headroom; the code
  adds 600 s, and the results use 600 s.
* `extract_slice` does not check that its minutes are still resident, nor that the count is positive;
  `ExtractBothWays` says exactly when it agrees with `extract_by_offset`.
* `unescape_systemd_instance` undoes `systemd_instance` on ASCII texts and on no others.
* With the ledger disabled the streaks go on but nothing is logged, so the replay and the
  live answer agree only while no band's late run is sustained (`DisabledLogsNothing`).
* `RingBuffer`'s docstring (wspr_recorder/ring_buffer.py:46-49) says no locking is needed,
  since only the ingest thread extracts.  Deferred windows are extracted by a worker
  (wspr_recorder/band_recorder.py:725-738); `TornGapsExactly` says when that loses gaps.

## Model

| member | source | states |
|---|---|---|
| `Ring.RingBuffer.constructor` | wspr_recorder/ring_buffer.py:52-77 | capacity is the least whole number of minutes, at least two, that covers the requested seconds; the ring stands for an empty history |
| `Ring.RingBuffer.WriteSamples` | wspr_recorder/ring_buffer.py:103-127 | the history grows by exactly the batch, across the seam of the array; marks and gaps are untouched |
| `Ring.RingBuffer.WriteZeros` | wspr_recorder/ring_buffer.py:129-134 | the history grows by that many zero samples, by nothing for a count of zero or less |
| `Ring.RingBuffer.RecordGap` | wspr_recorder/ring_buffer.py:136-138 | the gap enters the log at the absolute offset of its place in the open minute; the ring goes on standing for history and log if and only if that place is an index into a minute |
| `Ring.RingBuffer.Clear` | wspr_recorder/ring_buffer.py:140-167 | back to the empty history |
| `Ring.RingBuffer.CloseMinute` | wspr_recorder/ring_buffer.py:169-190 | closing a minute changes neither history nor gap log, although the bounded deque may evict its oldest gap list; the ring goes on standing for them if and only if the minute was full |
| `Ring.RingBuffer.ExtractByOffset` | wspr_recorder/ring_buffer.py:255-311 | returns the exact history slice with exactly the gaps recorded inside it, and None exactly when a positive-length window is not fully resident |
| `Ring.RingBuffer.ExtractSlice` | wspr_recorder/ring_buffer.py:192-253 | for every count both error cases exactly; the samples at the ring positions of the last k closed minutes, however far overwritten, and the gaps of those minutes in order; for k of zero or less what Python's slices then give |
| `Ring.RingBuffer.ExtractBothWays` | wspr_recorder/ring_buffer.py:192-311 | the two extractions give the same samples and the same gap list whenever k minutes plus the open one fit in capacity, and the second returns None exactly when they do not |
| `RingModel.WrittenResident` | wspr_recorder/ring_buffer.py:103-127 | after a batch that may wrap, every offset still resident reads its own history sample, old or new |
| `RingModel.WriteKeepsInv` | wspr_recorder/ring_buffer.py:103-127 | write position is the absolute count mod capacity and every resident cell holds its sample, kept by any batch |
| `RingModel.CloseKeepsInv` | wspr_recorder/ring_buffer.py:169-190 | the same invariant, with the gap log split over evicted, retained and open lists, kept by closing a minute |
| `RingModel.WindowGaps` | wspr_recorder/ring_buffer.py:289-308 | the gaps of a resident window all come from the retained lists: what the deque evicted lies before it |
| `RingModel.SliceGapsOf` | wspr_recorder/ring_buffer.py:225-247 | the merged per-minute lists are exactly the log's gaps in those minutes, in order |
| `RingRaces.TornGapsExactly` | wspr_recorder/ring_buffer.py:289-308 | a copy made without a lock, listing the closed minutes before and the open one after any writes, gaps and minute ends, gives the window's gaps exactly when no minute was closed in between or the minute then open had none in the window; otherwise just that minute's are missing |
| `History.WindowIsStable` | wspr_recorder/ring_buffer.py:255-311 | a window that had arrived reads the same, samples and gaps, at any later moment, until the leading edge is more than one capacity past its start, and then not at all |
| `History.GapsWithinAre` | wspr_recorder/ring_buffer.py:298-308 | the gaps of a window are, in the order logged, those logged in it and no others, each at its distance from the window's start and otherwise unchanged |
| `Sync.UnwrapCountsSamples` | wspr_recorder/sync_strategy.py:171-181 | for contiguous packets of at most 2^31 samples the unwrapped value is the first raw timestamp plus the samples so far, over any number of wraps |
| `Sync.ExactlyOneSpans` | wspr_recorder/sync_strategy.py:284-299 | a boundary the stream has run past lies inside exactly one packet |
| `Sync.BoundaryIsOnTheMinute` | wspr_recorder/sync_strategy.py:194-206 | the sample count to the boundary is within half a sample period of the labelled UTC minute, whatever the reference instant |
| `Sync.NextMinuteIsNext` | wspr_recorder/sync_strategy.py:194-204 | the labelled minute is the first whole minute at or after the reference instant |
| `Sync.HearAllUnwraps` | wspr_recorder/sync_strategy.py:171-181 | the counter kept packet by packet is the unwrapped value the laws above speak of |
| `Sync.RtpSyncStrategy.Unwrap` | wspr_recorder/sync_strategy.py:171-181 | the counter moves by the signed step between the two timestamps, and starts at the raw value |
| `Sync.RtpSyncStrategy.Correlate` | wspr_recorder/sync_strategy.py:183-222 | the boundary is that many samples after the packet and carries the next minute |
| `Sync.DecisionFor` | wspr_recorder/sync_strategy.py:284-299 | a decision exactly when the packet spans the boundary, at the boundary's place inside the packet |
| `Sync.RtpSyncStrategy.ShouldStartMinute` | wspr_recorder/sync_strategy.py:271-299 | unwrap, correlate on the first packet only, and answer that decision |
| `Sync.RtpSyncStrategy.OnMinuteStarted` | wspr_recorder/sync_strategy.py:301-310 | boundary and label advance by one minute together |
| `Sync.RtpSyncStrategy.Reset` | wspr_recorder/sync_strategy.py:312-334 | correlation and unwrap state are forgotten |
| `Modes.PeriodsOf` | wspr_recorder/decode_mode.py:78-84 | the distinct periods of the configured modes, none twice, each a WSPR or FST4W period |
| `Modes.PeriodsOfAppend` | wspr_recorder/decode_mode.py:87-98 | periods come in order of first appearance |
| `Modes.ModesWithPeriodCount` | wspr_recorder/decode_mode.py:87-98 | a period's modes are the configured modes of that period, each as often as configured |
| `Modes.ModesWithPeriodAppend` | wspr_recorder/decode_mode.py:87-98 | and in the order configured |
| `Modes.MaxPeriod` | wspr_recorder/decode_mode.py:71-75 | it is the period of a configured mode and none is longer; 120 s when none is configured |
| `Slots.FirstSlot` | wspr_recorder/band_recorder.py:704-710 | the first multiple of the period at or after the anchor |
| `Slots.FirstSlotAhead` | wspr_recorder/band_recorder.py:704-710 | the seeded slot does not begin before the anchor |
| `Slots.Offset` | wspr_recorder/band_recorder.py:711-712 | the whole number nearest to the sample periods between anchor and slot start, the even one of two equally near |
| `Rounding.NearestEvenIsUnique` | wspr_recorder/band_recorder.py:711-712 | no other whole number is nearest, ties included |
| `Slots.OffsetIsNegative` | wspr_recorder/band_recorder.py:711-718 | a slot lies before the anchor sample exactly when it began more than half a sample period before the anchor |
| `Slots.OffsetStep` | wspr_recorder/band_recorder.py:711-715 | the next slot's offset is exactly one period of samples later, because that product is even and rounding is half to even |
| `Slots.OffsetUnderAnchor` | wspr_recorder/band_recorder.py:711-715 | an anchor risen by at most s seconds moves a slot's offset back by at most s seconds of samples and one |
| `Slots.HarvestWalks` | wspr_recorder/band_recorder.py:704-802 | a harvest decides consecutive slots once each and stops at the first that has not fully arrived; it ends because every turn raises the offset |
| `Slots.WalksOverMultiples` | wspr_recorder/band_recorder.py:704-721 | what a cursor decides are multiples of its period, strictly increasing, from its seed up to its position |
| `Slots.DecidedExactlyOnce` | wspr_recorder/band_recorder.py:704-802 | every multiple passed has been decided, and exactly once |
| `Slots.HarvestAfterHarvest` | wspr_recorder/band_recorder.py:673-802 | with at most a minute of audio since the last harvest and 600 s of headroom nothing is dropped unless the anchor rose by more than 539 s; with an unmoved anchor every decided slot is emitted |
| `Slots.EmittedIncrease` | wspr_recorder/band_recorder.py:704-802 | starts of emitted slots strictly increase |
| `Slots.TilesAreOneWindow` | wspr_recorder/band_recorder.py:711-721 | under one anchor m consecutive windows of a period are one window of m periods |
| `Slots.LongWindowsAreShortWindows` | wspr_recorder/band_recorder.py:711-721 | an F30 window is its 15 W2 windows end to end, an F15 window its 3 F5 windows |
| `Requests.RightWindowPersists` | wspr_recorder/band_recorder.py:722-800 | a request that is right when sent stays right as the stream goes on, deferred ones included |
| `CaptureGrid.PeriodKeepsLedger` | wspr_recorder/band_recorder.py:704-802 | harvesting a period adds to its requests and drops exactly what its cursor decided, and to no other period |
| `CaptureGrid.PeriodKeepsRight` | wspr_recorder/band_recorder.py:711-800 | every request names the window that its slot start gives under the anchor value in force when it was sent, with the RTP times of that window, which had arrived by then |
| `CaptureGrid.PeriodKeepsJustified` | wspr_recorder/band_recorder.py:704-760 | every seed is the first slot after an anchor value read; every decision is the one the anchor value in force and the leading edge of its moment call for: skipped before the anchor, dropped when no longer in the ring, else sent |
| `CaptureGrid.PeriodOutcome` | wspr_recorder/band_recorder.py:673-803 | no drop unless the anchor rose by more than 539 s since the last harvest; under an unmoved one all is emitted, with 540 s to spare before it leaves the ring |
| `CaptureLaws.HarvestKeepsGrid` | wspr_recorder/band_recorder.py:673-803 | a harvest takes one reading, radiod's or the frozen label, keeps all of that over all periods, and leaves every cursor on a slot that has not arrived under that reading |
| `CaptureEpochs.BatchKeeps` | wspr_recorder/band_recorder.py:394-447 | any batch keeps it: the ring's history is the stream from the cut on, whatever the batch sizes, until a watchdog asks for a re-sync |
| `CaptureEpochs.BatchGrows` | wspr_recorder/band_recorder.py:394-447 | a batch adds at most its own length to the ring and takes nothing away |
| `CaptureRuns.StepKeeps` | wspr_recorder/band_recorder.py:327-889 | every input, a batch of any size or a reset, keeps the law for the epoch in progress and all epochs before it |
| `CaptureRuns.EveryRequestIsFaithful` | wspr_recorder/band_recorder.py:722-800 | in any run, every request ever sent stands for the stretch of its epoch's stream that starts where its UTC label falls under the anchor value in force when it was sent; where the stream was unbroken the i-th sample arrived under the request's start timestamp plus i |
| `CaptureSlots.AudioIsWhereTheLabelSays` | wspr_recorder/band_recorder.py:711-800 | in any run every request's audio is one period of its epoch's stream and begins, to the nearest sample and on a tie the even one, as many samples after the anchor sample as its UTC label is from the anchor value then in force; RTP times, gaps, and whether it is deferred (fifteen minutes or more) follow |
| `CaptureRuns.StreamIsDelivered` | wspr_recorder/band_recorder.py:327-447 | the streams of the epochs, end to end, are the samples delivered, each under the RTP time its batch gives it |
| `CaptureRuns.WholeExactly` | wspr_recorder/band_recorder.py:359-366 | whatever happens in other epochs, an epoch's stream is unbroken if and only if its RTP times count up by one and it had no batch of more than 2^31 samples |
| `CaptureRuns.ContinuousIsWhole` | wspr_recorder/__main__.py:386-406 | if each batch is at most 2^31 samples and starts at the RTP time the one before it ended at, or anywhere after a stream restore, every epoch's stream is unbroken |
| `CaptureRuns.StampsCountUp` | wspr_recorder/band_recorder.py:359-364 | when the metadata count what one source delivers, the i-th sample delivered arrives under its first RTP time plus i |
| `CaptureRuns.CountedIsContinuous` | wspr_recorder/band_recorder.py:359-364 | and its batches follow on from each other |
| `CaptureRuns.RestoredIsContinuous` | wspr_recorder/__main__.py:386-406 | as do those of sources that start counting anew after a stream restore |
| `CaptureRuns.TapeIsReadOnce` | wspr_recorder/band_recorder.py:449-483 | over any run every entry of the anchor tape is read once, each epoch going on where the one before it stopped |
| `CaptureRuns.ReferenceIsOfTheFirstBatch` | wspr_recorder/sync_strategy.py:183-206 | an epoch's reference instant is the one given with its first samples, and later batches do not change it |
| `CaptureRuns.SyncedExactlyAtTheBoundary` | wspr_recorder/band_recorder.py:396-421 | on an unbroken stream the recorder is synced exactly when the stream has run past the boundary that reference fixes; the anchor sample is that boundary, carries the RTP time it arrived under, and is within half a sample period of the minute it is labelled with |
| `CaptureSlots.DropsOnlyOnARise` | wspr_recorder/band_recorder.py:743-760 | a slot is dropped only in an epoch in whose own stretch of the anchor tape the value rose by more than 539 s between two readings |
| `CaptureSlots.HeldAnchorDropsNothing` | wspr_recorder/band_recorder.py:449-483 | an epoch whose stretch of the tape stays within 539 s drops nothing, whatever other epochs read |
| `CaptureSlots.FixedAnchorEmitsAll` | wspr_recorder/band_recorder.py:449-483 | an epoch whose stretch of the tape does not move emits every slot it decides, each with 540 s to spare |
| `CaptureSlots.NoSlotOverdue` | wspr_recorder/band_recorder.py:442-447 | between batches no complete undecided slot ends a second of audio or more behind the leading edge, under the last anchor value read, which is radiod's or the frozen label |
| `CaptureSlots.CompleteSlotsAreDecided` | wspr_recorder/band_recorder.py:673-803 | under any anchor movement every slot from the seed on whose audio ended a second or more ago, by the value last read, has been sent, filed as dropped, or skipped because it began before the anchor by the value then in force |
| `CaptureSlots.CompleteSlotsAreSent` | wspr_recorder/band_recorder.py:673-803 | in an epoch whose readings have not moved every slot from the anchor on whose audio ended a second or more ago has been sent |
| `CaptureSlots.SlotsDecidedExactlyOnce` | wspr_recorder/band_recorder.py:704-802 | under any anchor movement each multiple passed was decided once, as the anchor value in force and the leading edge of that moment call for; requests and drops of the period are exactly those decisions, starts strictly increasing |
| `CaptureSlots.CopyableForNineMinutes` | wspr_recorder/band_recorder.py:725-751 | a deferred request sent under an unmoved anchor can be copied, and is what it stood for, until more than 540 s of audio have followed |
| `CaptureSlots.LongRequestIsShortRequests` | wspr_recorder/band_recorder.py:711-800 | in an epoch whose readings have not moved, the audio of every long request sent is, end to end, that of the requests of a shorter configured period dividing its own, which have all been sent: an F30 request is its 15 W2 requests |
| `CaptureClock.RunIsTimely` | wspr_recorder/band_recorder.py:422-447 | in every epoch of every run each full minute of audio is one boundary that asks the watchdogs once, in order over the run; none asked for a re-sync but possibly the last; readings beyond those of the minutes are at least a second of audio apart |
| `CaptureClock.ResyncExactlyOnAFault` | wspr_recorder/band_recorder.py:434-440 | a batch ends its epoch exactly when at a minute boundary it crosses a watchdog asks for a re-sync |
| `CaptureClock.GapsAreFiled` | wspr_recorder/band_recorder.py:367-381 | the gaps reported with a batch enter the log one by one, where the ring ends, at the open minute's count, none longer than two seconds |
| `CaptureClock.GapsAreDelivered` | wspr_recorder/band_recorder.py:367-381 | over any run the epochs' gap logs, end to end, are the gaps delivered |
| `Recorder.BandRecorder.constructor` | wspr_recorder/band_recorder.py:167-325 | a blank epoch whose ring holds exactly the longest configured period and 600 s |
| `Recorder.BandRecorder.HarvestSlots` | wspr_recorder/band_recorder.py:704-802 | the loop over the due slots of a period makes exactly the decisions of the specification, and sends and files one request or drop for each |
| `Recorder.BandRecorder.AnchorUtcNow` | wspr_recorder/band_recorder.py:449-483 | radiod's value at this reading, or the frozen label |
| `Recorder.BandRecorder.HarvestReadySlots` | wspr_recorder/band_recorder.py:673-803 | one reading, and under it the harvest of every configured period in turn |
| `Recorder.BandRecorder.OnMinuteBoundary` | wspr_recorder/band_recorder.py:485-671 | the minute is counted; unless a watchdog asks for a re-sync it is closed under the UTC, by the anchor value read, and the RTP time at which it began, and harvested |
| `Recorder.BandRecorder.WriteMinutes` | wspr_recorder/band_recorder.py:422-440 | the batch is written chunk by chunk, minute ends included, up to a re-sync request |
| `Recorder.BandRecorder.Deliver` | wspr_recorder/band_recorder.py:422-447 | the chunks, then a harvest when a second of audio has passed since the last throttled one |
| `Recorder.BandRecorder.TrySync` | wspr_recorder/band_recorder.py:396-421 | the strategy hears the batch with the reference given; on a decision the batch is cut there and the anchor labelled |
| `Recorder.BandRecorder.RecordGaps` | wspr_recorder/band_recorder.py:367-381 | the log grows by one entry per gap, each where the ring ends, at the open minute's count, and of its own duration or two seconds, whichever is less |
| `Recorder.BandRecorder.AddSamples` | wspr_recorder/band_recorder.py:394-447 | one batch does to the epoch what the model says |
| `Recorder.BandRecorder.Reset` | wspr_recorder/band_recorder.py:841-889 | the epoch ends; fresh ring, no correlation, empty cursors; requests already sent are untouched |
| `Recorder.BandRecorder.OnSamples` | wspr_recorder/band_recorder.py:327-392 | one step of the machine; an empty batch changes nothing; a ring left behind by a reset keeps what it holds |
| `Recorder.RunResults` | wspr_recorder/band_recorder.py:327-447 | the results above for every epoch of any run from the start |
| `Recorder.Capture` | wspr_recorder/band_recorder.py:327-447 | a new recorder given any batches and resets is the model's run over them: every request it sent is faithful; its epochs' streams are what was delivered and each is unbroken exactly when its RTP times count up; the anchor tape is read in order; an epoch drops nothing unless the anchor rose by more than 539 s within it; rings left behind keep what they held |
| `Recorder.DeliverMore` | wspr_recorder/band_recorder.py:327-447 | any further batches and resets extend the ring they find by at most their total length, whether or not a reset replaces it |
| `Recorder.MaterializeLater` | wspr_recorder/band_recorder.py:725-751 | a deferred request of the present or any ended epoch, copied after any further batches, re-syncs and resets, gives the samples and gaps of the moment it was sent, or None exactly when more than a capacity has followed the window's start; if the anchor had not moved in its epoch not before 540 s of further audio, and an ended epoch's ring gets none |
| `PoolModel.PushOrdered` | wspr_recorder/decode_pool.py:131-135 | pushing a newer entry keeps the heap ordered by period, then submission |
| `PoolModel.StepKeepsInv` | wspr_recorder/decode_pool.py:116-257 | every atomic step keeps accounting, wake-up cover, conservation, order and drain |
| `PoolModel.RunKeepsInv` | wspr_recorder/decode_pool.py:116-257 | so does every run |
| `PoolModel.NoLostWakeUp` | wspr_recorder/decode_pool.py:124-257 | in every reachable state with an un-notified waiter, runnable jobs are at most the workers already on their way to look |
| `PoolModel.NothingStranded` | wspr_recorder/decode_pool.py:192-257 | if every free worker sleeps, the queues are empty or hold only long jobs with the cap used up |
| `PoolModel.LongSlotsAccounted` | wspr_recorder/decode_pool.py:202-257 | the in-flight counter is the number of workers holding an unreleased job of fifteen minutes or more, within the cap until shutdown |
| `PoolModel.LongOnlyAfterShort` | wspr_recorder/decode_pool.py:202-222 | a long job is taken only when no short one is queued, and the job taken is the first of its queue |
| `PoolModel.OrderIsByPeriod` | wspr_recorder/decode_pool.py:127-135 | queue entries stand in order of period, and of equal periods in order of submission |
| `PoolModel.SmallestIsTaken` | wspr_recorder/decode_pool.py:192-222 | in every reachable state a worker takes a job exactly when there is one it may take: one of less than fifteen minutes if any is queued, of its kind the one of shortest period, and of those the one submitted first; no other job leaves the queues |
| `PoolModel.EqualPeriodsInOrder` | wspr_recorder/decode_pool.py:127-135 | over a run, jobs of equal period are taken in submission order |
| `PoolModel.ExitMeansDrained` | wspr_recorder/decode_pool.py:164-176 | once a worker has left, every accepted job has been taken, exactly once |
| `PoolModel.DrainDecreases` | wspr_recorder/decode_pool.py:202-257 | after shutdown every worker step brings the drain closer to its end |
| `PoolModel.HalfShutdownKeepsInv` | wspr_recorder/decode_pool.py:164-172 | a shutdown that raised before waking anyone keeps the invariant exactly when no worker waits |
| `PoolModel.DrainFinishes` | wspr_recorder/decode_pool.py:164-176 | from any draining state worker steps alone can take every worker out, so the join can return |
| `Pool.PriorityDecodePool.constructor` | wspr_recorder/decode_pool.py:76-112 | both numbers are clamped, at each end to the nearest allowed value; the default cap is half the workers, rounded down, at least one |
| `Pool.PriorityDecodePool.Submit` | wspr_recorder/decode_pool.py:116-138 | one submit step; refused exactly after shutdown |
| `Pool.PriorityDecodePool.TakeNext` | wspr_recorder/decode_pool.py:192-222 | one pass of the take loop is one take step, which takes the job that is due, and the answer is the worker's new state |
| `Pool.PriorityDecodePool.ReleaseLong` | wspr_recorder/decode_pool.py:252-257 | the counter falls by one and one waiter is woken; the guard against a negative counter never acts |
| `Pool.PriorityDecodePool.Shutdown` | wspr_recorder/decode_pool.py:164-176 | nothing more is accepted and every waiter is woken; cancelling raises exactly when something is queued, with the flag set and nobody woken |
| `Pool.PriorityDecodePool.Pending` | wspr_recorder/decode_pool.py:140-143 | accepted minus taken |
| `BatcherModel.StepKeepsInv` | wspr_recorder/spot_sink.py:1018-1536 | one batch per cycle and receiver; the commit maps share one key set, disjoint from the fired set |
| `BatcherModel.ProducibleDecides` | wspr_recorder/spot_sink.py:947-1016 | a mark decides whether that band of that receiver is waited for, where it can finish at all, and nothing else |
| `BatcherModel.ExtendAt` | wspr_recorder/spot_sink.py:1126-1164 | a band's spots are kept together in the order they came, other bands are left alone |
| `BatcherConservation.NothingLostOrDoubled` | wspr_recorder/spot_sink.py:1126-1307 | at any moment of any run, queued, taken and delivered spots together are the multiset added, by cycle, receiver and band |
| `BatcherConservation.StopDeliversEverything` | wspr_recorder/spot_sink.py:1514-1536 | a stop whose leftovers are flushed has delivered exactly what was added before it; everything is delivered if and only if producers were quiet afterwards |
| `BatcherCompletion.TakenExactlyWhenDue` | wspr_recorder/spot_sink.py:1212-1230 | from its opening on, a pass takes a batch if and only if every pre-registered or announced band has reported done since, or its deadline has passed; it leaves with exactly those bands, each band's spots in the order they came, the last noise reading of each, and the radiod id of its opening |
| `BatcherCompletion.PreregisteredAreVisited` | wspr_recorder/spot_sink.py:969-1016 | pre-registered bands are exactly the producible ones for which some period's harvest cursor decides a slot starting at that cycle |
| `BatcherWakes.WakeExactlyOnce` | wspr_recorder/spot_sink.py:1240-1261 | from any state, once receivers are set and with a callback, exactly one more wake for a cycle if all of them have committed rows since or a pass came a backstop after the first commit since, and otherwise none |
| `BatcherWakes.WakePerFlush` | wspr_recorder/spot_sink.py:1434-1446 | with no receivers to wait for and a callback every flush that wrote rows is one wake of its cycle; without a callback nothing is |
| `BatcherWakes.NeverWokenTwice` | wspr_recorder/spot_sink.py:1413-1469 | from any state, between two calls that set the receivers a cycle is woken at most once, however the callback comes and goes, beside a backstop wake the writer already held |
| `BatcherWakes.PendingWakeComesOnTop` | wspr_recorder/spot_sink.py:1268-1298 | events under which that one is the second wake of the cycle |
| `BatcherReopening.FlushedOncePerOpening` | wspr_recorder/spot_sink.py:1064-1089 | a cycle's batch is flushed exactly as often as it was opened |
| `BatcherReopening.LateRequestFlushesAgain` | wspr_recorder/spot_sink.py:1337-1349 | a concrete run in which one cycle and receiver is flushed twice |
| `Batcher.CycleBatcher.ExpectedBandsForCycle` | wspr_recorder/spot_sink.py:969-1016 | exactly the producible bands with a positive period dividing the cycle's epoch second |
| `Batcher.CycleBatcher.SetBandProducible` | wspr_recorder/spot_sink.py:947-962 | one band's mark for one receiver changes |
| `Batcher.CycleBatcher.SetExpectedRxSources` | wspr_recorder/spot_sink.py:1018-1042 | the new set starts with nothing committed and nothing fired |
| `Batcher.CycleBatcher.ExpectBand` | wspr_recorder/spot_sink.py:1046-1089 | one announce step; opens a pre-registered batch with the backstop deadline when there is none |
| `Batcher.CycleBatcher.MarkDone` | wspr_recorder/spot_sink.py:1091-1122 | one report step; no effect when the batch is unknown |
| `Batcher.CycleBatcher.Add` | wspr_recorder/spot_sink.py:1126-1164 | one add step; nothing for no spots |
| `Batcher.CycleBatcher.AddNoise` | wspr_recorder/spot_sink.py:1166-1195 | one noise step; the last reading of a band wins |
| `Batcher.CycleBatcher.WriterPass` | wspr_recorder/spot_sink.py:1208-1268 | takes exactly the due batches and overdue cycles; otherwise sleeps until the earliest pending instant, or 0.05 s from now if that is later, or 5 s when none is pending |
| `Batcher.CycleBatcher.FlushNext` | wspr_recorder/spot_sink.py:1300-1411 | hands the batch to the sink and counts a commit only when rows were written |
| `Batcher.CycleBatcher.OnPerRxCommitted` | wspr_recorder/spot_sink.py:1413-1469 | never without a callback, always without expected receivers, else exactly when the cycle has not fired and every one of them has committed with this |
| `Batcher.CycleBatcher.FireBackstop` | wspr_recorder/spot_sink.py:1284-1298 | a backstop wake, after the pass's flushes, if a callback is there |
| `Batcher.CycleBatcher.Stop` | wspr_recorder/spot_sink.py:1514-1536 | every open batch is taken out to be flushed |
| `HealthModel.StreakIsRun` | wspr_recorder/decode_health.py:144-206 | a band's streak is its trailing unbroken run of late decodes: count, first, worst, and reported exactly when some decode from the sustain-th on was no less late than the first |
| `HealthModel.StatusFollowsRule` | wspr_recorder/decode_health.py:132-206 | every decode's status follows from the history of that band alone; BEHIND the first time the rule holds and then at every multiple of sustain |
| `HealthModel.BehindIsSustained` | wspr_recorder/decode_health.py:185-206 | BEHIND closes at least sustain consecutive late decodes, the current one no less late than the first |
| `HealthModel.DrainingNeverReports` | wspr_recorder/decode_health.py:183-191 | a run whose later decodes are all less late than its first is reported if and only if it is not empty and the sustain count is at most one |
| `HealthModel.OneLateDecodeIsBehind` | wspr_recorder/decode_health.py:182-206 | with a sustain count of one a first late decode is BEHIND |
| `HealthModel.OneCaughtUpPerRun` | wspr_recorder/decode_health.py:157-175 | the log holds exactly one CAUGHT_UP per ended run |
| `HealthModel.EverythingIsCounted` | wspr_recorder/decode_health.py:230-234 | each status is counted as often as it was given, healthy decodes that are not stored included |
| `HealthModel.HealthyAtMostHourly` | wspr_recorder/decode_health.py:235-243 | stored healthy decodes of one band are at least an hour apart, and the last is remembered |
| `HealthModel.StoredExactly` | wspr_recorder/decode_health.py:230-243 | a healthy decode is stored exactly when an hour has passed since the band's last one that was; every other event always is |
| `HealthModel.EventsAreStamped` | wspr_recorder/decode_health.py:132-215 | an event carries its band, the second it was made in, its lateness to the nearest tenth, and the status of a kill, a drop, or a decode on time or late |
| `HealthReplay.ReplayAgreesWithLive` | wspr_recorder/wspr_ctl.py:137-155 | for every sequence of outcomes the full log yields the same bands behind, with the same count, first and worst lateness, as the live ledger |
| `HealthReplay.RowDescribesRun` | wspr_recorder/decode_health.py:291-298 | the row of a band behind gives the length of its trailing late run, and the lateness it began with and its worst, to the nearest tenth |
| `HealthReplay.TrimmedLogInventsNothing` | wspr_recorder/decode_health.py:283-298 | a log cut at the front names only bands that are behind, never with more late cycles, and as the live ledger has it when the previous CAUGHT_UP is still in it |
| `HealthReplay.DisabledLogsNothing` | wspr_recorder/decode_health.py:230-231 | disabled, nothing is logged or counted, and replay and live answer agree if and only if no band's trailing run of late decodes is sustained |
| `Health.DecodeHealth.Record` | wspr_recorder/decode_health.py:132-206 | the ledger and the event are what the model says for that outcome |
| `Health.DecodeHealth.RecordDrop` | wspr_recorder/decode_health.py:208-215 | a drop is logged and leaves every streak alone |
| `Health.DecodeHealth.AddLocked` | wspr_recorder/decode_health.py:221-243 | everything is counted; a healthy decode is stored at most once an hour per band; the deque is the last 500 stored |
| `Health.DecodeHealth.BandsBehind` | wspr_recorder/decode_health.py:291-298 | exactly the reported streaks, lateness rounded to tenths |
| `Health.SummariseEvents` | wspr_recorder/wspr_ctl.py:115-168 | counts, cycles missed and bands behind of the events in the window |
| `Health.WindowIsSuffix` | wspr_recorder/wspr_ctl.py:119-120 | with utc stamps in order the window is the suffix of the log from the cutoff on |
| `WavFormat.ScanFindsMeaning` | wspr_recorder/noise.py:203-212 | scanning any list of padded chunks finds the first data chunk and the last format before it |
| `WavFormat.FloatWavRoundTrip` | wspr_recorder/noise.py:198-221 | rate and samples come back bit for bit, also with unrelated chunks of any length before and between, and anything after |
| `WavFormat.InterpretedAre` | wspr_recorder/noise.py:210-221 | float and 16-bit formats are read, others not, ragged payloads raise; value i is that of the first channel of frame i, signed and little-endian, at the format's rate |
| `WavFormat.OnlyRiffIsRead` | wspr_recorder/noise.py:199-200 | a file that does not begin as a RIFF/WAVE file is not read |
| `WavFormat.FloatFormatFields` | wspr_recorder/wav_writer.py:531-541 | tag, channels, rate, byte rate, block size and bits of the format body |
| `WavFormat.ContainerSize` | wspr_recorder/wav_writer.py:531-536 | the size field counts what follows it |
| `WavFile.WriteFloat32Wav` | wspr_recorder/wav_writer.py:521-551 | the fields written are a well-formed RIFF file of the two chunks, with the right sizes; an error exactly when a field does not fit in 32 bits |
| `WavFile.ReadWavMonoFloat` | wspr_recorder/noise.py:188-221 | the scan ends on every byte string and answers what the chunks mean, unreadable and raised cases included |
| `WavFile.WriteThenRead` | wspr_recorder/wav_writer.py:521-551 | reading what was written recovers it |
| `ReporterId.UnescapeUndoesSystemd` | wspr_recorder/_reporter_id.py:23-44 | decoding the unit-name form gives the text back if and only if the text is ASCII |
| `ReporterId.FixpointHasNoEscape` | wspr_recorder/_reporter_id.py:23-25 | unescaping changes a text exactly when it contains an escape |
| `ReporterId.EscapesNameBytes` | wspr_recorder/_reporter_id.py:23-25 | an escape names its byte, its digits written small or large |
| `ReporterId.InstanceIsUnitName` | wspr_recorder/_reporter_id.py:38-44 | the unit-name form holds only letters, digits, colon, hyphen, underscore, point and backslash, and leaves alone what is a unit name already |
| `ReporterId.Utf8Decodes` | wspr_recorder/_reporter_id.py:42-43 | the bytes escaped for a character are its UTF-8 encoding (section 3 of RFC 3629), the shortest that gives it back |
| `ReporterId.UnescapeShortens` | wspr_recorder/_reporter_id.py:47-52 | a pass that changes the text shortens it |
| `ReporterId.Display` | wspr_recorder/_reporter_id.py:47-52 | the loop ends and what it shows holds no escape and no equals sign |
| `ReporterId.EverySpellingNamesTheId` | wspr_recorder/_reporter_id.py:28-35 | any case, slash or equals sign, surrounding white space, and the unit-name form of ASCII spellings all name the id |
| `ReporterId.ToStorageUndoesDisplay` | wspr_recorder/_reporter_id.py:28-52 | every valid id comes back from its storage, unit-name and displayed forms |
| `ReporterId.TheSpaces` | wspr_recorder/_reporter_id.py:32 | exactly the white space that strip() removes, listed one by one |
| `ReporterId.AcceptedExactly` | wspr_recorder/_reporter_id.py:28-35 | a text is accepted if and only if, stripped and unescaped once, it is letters (those few counted whose upper case is ASCII), digits, slashes, equals signs and hyphens, begins and ends with a letter or digit, and upper-cases to two characters or more |
| `ReporterId.ToStorage` | wspr_recorder/_reporter_id.py:28-35 | what is accepted is a valid id |

## Left out

- `Ring.RingBuffer.WriteSamples`: the batch must end within two laps of the array; a longer one makes numpy raise, which no caller reaches because chunks stop at minute edges.
- `Recorder.MaterializeLater`: the copy is one step here; `RingRaces.TornGapsExactly` splits its look at the gap lists in two, but not the statements of a write or a minute end, nor the copying of the cells.
- `Recorder.BandRecorder.OnMinuteBoundary`: the timing-tier alarm and the divergence watchdogs are the single fault input, so a fault may come at any minute; the counters they keep across a reset are not modelled.
- `Recorder.BandRecorder.RecordGaps`: a gap whose batch turns out to be cut or dropped stays where the open minute ended, as in the source; its timestamp text is not modelled.
- `Health.DecodeHealth.Record`: needs a sustain count other than zero, where the reminder test divides by it; run durations in minutes, elapsed times and detail texts are not kept.
- `Health.DecodeHealth.AddLocked`: an event log that cannot be written is not modelled.
- `Health.SummariseEvents`: the per-band table, the last event per band and the list of recent problems are not modelled.
- `Batcher.CycleBatcher.FlushNext`: submission and commit are one step, since the sink touches nothing the producers see; the sink is taken not to raise; rows the sink refuses are its own.
- `Batcher.CycleBatcher.Stop`: the writer is taken to have been joined; the ten-second limit on the join is not modelled.
- `Batcher.CycleBatcher.ExpectedBandsForCycle`: a cycle key is the minute it names, so keys that do not parse are not modelled.
- `BatcherWakes.WakeExactlyOnce`: the settle delay before a wake, and wakes sent to other processes, are not modelled.
- `Pool.PriorityDecodePool.Submit`: a heap is its entries in order; priorities read from arguments and futures are not modelled.
- `WavFile.WriteFloat32Wav`: the bytes already written when a field does not fit are not modelled.
- `ReporterId.ToStorage`: upper-casing is exact wherever its result is ASCII; other characters only stay outside ASCII, which the id pattern rejects either way.
- The other sync strategies, the UTC sources behind an anchor, statistics and logging.
- Float imprecision of epoch seconds and the contents of float32 samples.
- Spot rows, SQL, sockets, uploads, provisioning, noise levels, and the host-wide decode slots: plumbing, or formulas with no exact law.
