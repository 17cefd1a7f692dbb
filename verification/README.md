# Verified core of the outpace engine

A Dafny model of the five parts of `ace-engine` whose guarantees hold only over whole runs:

* **Live HLS packager** (`Hls*`, `Ts*`). Byte chunks become bounded transport-stream segments that open with their
  tables. The model (`HlsModel`) is a pure state transformer; `HlsPackager` holds its loops, proved to compute it. Every
  whole source packet, and every gap, new generation, failure and stop, is written down as an event before anything is
  decided about it, with the tags of its bytes, what the audio selection made of it and the timing it shows the clock.
  "Seamless or flagged", durations, the steady clock and the origin of every byte are statements about those events.
  `HlsOutcomes` and `HlsCalls` say what every packet and every call does.
* **Crash-safe piece reservation** (`Broadcast*`). A step relation between awaits and lock boundaries over any number of
  process lifetimes. The disk is the set of contents that may survive losing power: a rename adds one, only a directory
  sync removes the others, and renaming a file whose data was not synced adds a torn one. `BroadcastPublisher` holds
  the save, publication and deletion loops over a filesystem that may fail at every operation.
* **Stream manager** (`Manager*`). Starts, stops, reaping, releases and shutdown interleave one phase at a time.
  `ManagerSections` holds the critical sections with their removal loops, and `ManagerStarts` a start as it executes.
* **MPEG-audio probe and recovery limiter** (`MpegProbe`, `Recovery`, `HlsWorker`). The constant-space probe is proved
  equal to a parser that sees the whole stream; the three-entry deque is proved equal to a ledger that counts. `TsFields`
  writes packets and headers out field by field and shows what the readers make of them.
* **Base32 info-hashes** (`Magnet`).

Durations are whole ticks of the 90 kHz clock. Parsers of tables and access points and the audio selection are arbitrary
functions (`HlsModel.Media`), so every result holds for all of them; the packet timing fields, the selected PCR clock
and the table cache are written out. `TsTables` writes out the PAT and PMT parsers, the access-point flag and the audio
selection of a transport that is not one single program; the reachability results below use those.

## Findings

* The panic at `crates/ace-engine/src/hls.rs:544-547` is reachable, although its message calls it impossible. When the
  first program of a PAT changes inside a run, the table cache forgets its PMT, while an audio selection that follows no
  program reports no change; if the run then reaches its ceiling past the target, no table prefix is left to go on with.
  `HlsPanic.PanicExactly` gives the exact condition of one source packet, `HlsPanic.PanicMeansRemap` shows over all runs
  that nothing but such a renaming causes it, and `HlsPanicExample.PanicHappens` panics every accepted configuration
  with room for four packets by a transport of two programs. All other results are stated for runs with and without
  this panic.
* A clock reset can go unnoticed in a titled stream. The packet after a full run is shown to the clock before upstream
  SDT packets are dropped (`crates/ace-engine/src/hls.rs:502-530`), so an SDT packet with a PCR captures a clock that has
  not started; references of the video's own clock are then ignored. `HlsTheorems.ClockIsSteady` proves the promise for
  every segment exactly unless such a packet came while its run was full and without a reference,
  `HlsTheorems.CapturedExactly` that nothing else captures a clock over any run, and `HlsCapture.CapturesExactly` the same
  for one packet. `HlsCaptureExample.ResetHappens` is a stream whose second segment is unflagged although the video's
  clock went back in it, under every accepted configuration with room for four packets.
* A generation that begins without announcing a recovery after segments were published starts unflagged
  (`crates/ace-engine/src/hls.rs:163-190`): `HlsRestart.RestartHappens` is such a run, and `HlsTheorems.UnflaggedExactly` shows
  that nothing else leaves an unflagged segment that does not continue its predecessor. The one caller never does that
  (`HlsWorker.WorkerSeamless`).
* The other `expect` calls of the packager and of the manager are unreachable: the model evaluates the unwrapped values
  under proof, and `ManagerTheorems.PublicationHasSource` covers `crates/ace-engine/src/manager.rs:1166-1168`.

## Model

| member | source | states |
|---|---|---|
| `HlsModel.ScanStepProgress` | crates/ace-engine/src/hls.rs:390-498 | every iteration of the scan loop decreases (unscanned packets, awaiting an access point, target reached), although accepting and cutting rescan the same packet |
| `HlsSteps.ScanStepInv` | crates/ace-engine/src/hls.rs:390-498 | one scan iteration keeps the run equal to its tables plus everything the source brought since the run began, free of breaks and markers, with the clock at the latest reference |
| `HlsSteps.AcceptInv` | crates/ace-engine/src/hls.rs:432-466 | an access point opens a run behind tables learned since the last break, flagged unless nothing was published or the generation restarted |
| `HlsSteps.CutInv` | crates/ace-engine/src/hls.rs:468-498 | a cut records a segment that ends with the event before the access point, and the new run begins with that very event |
| `HlsSteps.ForceInv` | crates/ace-engine/src/hls.rs:536-555 | a forced cut does the same with the packet after a full run, or panics for want of tables |
| `HlsSteps.RestartInv` | crates/ace-engine/src/hls.rs:556-583 | a discarded full run reopens at once, flagged, on an access point |
| `HlsSteps.EmitBase` | crates/ace-engine/src/hls.rs:608-644 | what is emitted is recorded with its place in the source, its tables' origin, the clock distance that is its duration and what its continuity rewriting depends on |
| `HlsSteps.ScanInv` | crates/ace-engine/src/hls.rs:390-498 | scanning keeps the invariant and leaves every buffered packet scanned |
| `HlsSteps.FeedPacketInv` | crates/ace-engine/src/hls.rs:381-388 | taking one packet, with lookahead past the ceiling, leaves the packager at rest or panicked with its run already emitted |
| `HlsRuns.FeedWholeInv` | crates/ace-engine/src/hls.rs:349-377 | so does one whole source packet: unannounced markers, dropped packets and changed selections included |
| `HlsRuns.BeginInv` | crates/ace-engine/src/hls.rs:163-190 | a new generation keeps the invariant and neither run, clock, tables, staged bytes nor audio memory of the old one; published segments stay, and it is pending exactly if it recovers |
| `HlsRuns.ApplyInv` | crates/ace-engine/src/hls.rs:163-236 | every public call keeps the invariant, and what is on record only grows |
| `HlsRuns.RunKeeps` | crates/ace-engine/src/hls.rs:163-333 | the same for every sequence of calls; without a native feed no byte is tagged native |
| `HlsTheorems.SeamlessOrFlagged` | crates/ace-engine/src/hls.rs:312-644 | every segment of every run is its tables and then exactly the packets the source brought between two events, nothing lost, repeated or reordered, with no break and no marker since its run began; the first and every flagged one begins on an access point of its own tables and only a flagged one with a marker; every other one begins with the event its predecessor stopped short of, or on an access point after an unannounced new generation |
| `HlsTheorems.UnflaggedExactly` | crates/ace-engine/src/hls.rs:163-644 | a segment that is neither first nor flagged fails to continue its predecessor if and only if a generation began as a first start in between |
| `HlsTheorems.UnflaggedContinues` | crates/ace-engine/src/hls.rs:163-644 | if no generation begins as a first start after something was published, every segment that is neither first nor flagged continues its predecessor |
| `HlsTheorems.ChainIsWhole` | crates/ace-engine/src/hls.rs:608-644 | segments that continue one another hold, together, everything the source brought between the first and the last of them, once and in order |
| `HlsTheorems.ClockIsSteady` | crates/ace-engine/src/hls.rs:468-606 | from where a segment's run began to where the segment ends, seams included, the segment is timed by the PID of its run's first clock reference if and only if no upstream SDT packet with a PCR met its run full and without a reference, and then each reference on that PID follows the one before it within half the clock's range |
| `HlsTheorems.CapturedExactly` | crates/ace-engine/src/hls.rs:502-606 | over every run, a segment's clock follows the PID of dropped packets if and only if such a packet came between the event that began its run and the one it stops short of |
| `HlsDurations.DurationExact` | crates/ace-engine/src/hls.rs:478-644 | every segment whose clock nothing seized lasts exactly the clock distance from the reference it starts at (the first of its run, or the last up to where its predecessor stopped) to the last one up to the event it stops short of |
| `HlsDurations.DurationsAddUp` | crates/ace-engine/src/hls.rs:478-644 | the durations of segments that continue one another add up, around the clock's wrap, to the distance from the first one's start to the last one's end; within half the clock's range they are that distance |
| `HlsTheorems.OnlyOwnBytes` | crates/ace-engine/src/hls.rs:163-200 | every segment's media, its tables, what the audio selection remembered for them and what its continuity rewriting depends on come from one stretch without a break, all of it fed under the token of the segment's generation, or natively in runs that use the native feed |
| `HlsTheorems.ReplayShows` | crates/ace-engine/src/hls.rs:608-644 | replaying any log through the window shows its last segments, numbers them by position, counts the flags of the evicted ones, and its target is the maximum of all durations |
| `HlsTheorems.WindowRefinesLog` | crates/ace-engine/src/hls.rs:748-755 | in every reachable state the window is that view of the emitted log, and a segment lookup returns exactly entry `seq` of the log while it is retained and nothing otherwise |
| `HlsTheorems.PlaylistOnlyAdvances` | crates/ace-engine/src/hls.rs:683-712 | over any further calls the media sequence, discontinuity sequence and target duration never decrease, and a number never names different bytes (sections 6.2.2 and 4.3.3.1 of RFC 8216) |
| `HlsConfig.ValidateExact` | crates/ace-engine/src/config.rs:183-233 | the checked validation accepts exactly the configurations within its limits, overflow included, and what it accepts is usable |
| `HlsTheorems.WindowBound` | crates/ace-engine/src/hls.rs:608-631 | current run, segments and staged bytes are within the ceiling, the window and one packet |
| `HlsTheorems.MemoryBound` | crates/ace-engine/src/config.rs:24-233 | under an accepted configuration, run and window together stay within the safe pool limit in every reachable state |
| `HlsTheorems.StrictReady` | crates/ace-engine/src/hls.rs:608-644 | a strict packager is ready only after enough segments of the current generation, and every segment in the log is made of nothing but its own generation's bytes |
| `HlsCalls.ReadyExactly` | crates/ace-engine/src/hls.rs:632-641 | in every run an open packager is ready if and only if enough segments count: of its generation if it is strict, in the window otherwise |
| `HlsCalls.ConfiguredReady` | crates/ace-engine/src/config.rs:183-233 | under an accepted configuration that is the configured number, and at least one; and every segment lasts at least the configured duration |
| `HlsCalls.CallsDo` | crates/ace-engine/src/hls.rs:163-236 | in every run, for every call: refused and stale ones change nothing; breaks drop run and staged bytes and nothing published; a missed deadline fails exactly a strict packager short of segments; a failure or stop takes effect; a feed that is let in takes every byte and closes nothing |
| `HlsCalls.FeedBytesTakes` | crates/ace-engine/src/hls.rs:335-379 | what was staged and what is fed is, byte for byte and in order, the source packets put on record and what is staged afterwards; after a panic, all up to some point |
| `HlsCalls.FeedBytesTags` | crates/ace-engine/src/hls.rs:335-379 | every source packet is on record with exactly the tags its bytes were fed under |
| `HlsCalls.OpeningMarkers` | crates/ace-engine/src/hls.rs:349-364 | until an announced generation has opened its first run, markers of its packets are no gaps, and nothing else of their timing changes; all other packets are recorded as they came |
| `HlsOutcomes.FeedPacketFate` | crates/ace-engine/src/hls.rs:381-583 | one packet through the scan loop or past the ceiling publishes one segment or none, and leaves a run open or not, exactly as marker, access point, target, clock, SDT filter and ceiling decide |
| `HlsOutcomes.FeedWholeFate` | crates/ace-engine/src/hls.rs:349-583 | so does every source packet, unannounced markers, changed selections and dropped packets included, and it is on record |
| `HlsCalls.PacketsMeetTheirFate` | crates/ace-engine/src/hls.rs:349-583 | in every reachable state that has not panicked |
| `HlsTheorems.ClosedForever` | crates/ace-engine/src/hls.rs:163-236 | failed and stopped packagers stay so and emit nothing more |
| `HlsTheorems.StaleCallsAreInert` | crates/ace-engine/src/hls.rs:163-211 | erasing all calls with outdated tokens from any run changes nothing |
| `HlsTheorems.SplitInvariance` | crates/ace-engine/src/hls.rs:335-379 | feeding two byte strings one after the other equals feeding their concatenation, from every state |
| `HlsTheorems.SplitFeeds` | crates/ace-engine/src/hls.rs:192-200 | the same for calls on the packager while the deadline does not expire |
| `HlsTheorems.AdvisoryStartOffset` | crates/ace-engine/src/hls.rs:714-731 | the offset is the exact span of a suffix without the oldest segment and at least three target durations long, one segment longer than the shortest where there is room; it is absent exactly when no suffix qualifies (section 4.3.5.2 of RFC 8216) |
| `HlsPanic.PanicExactly` | crates/ace-engine/src/hls.rs:349-565 | a source packet panics the packager if and only if it is no unannounced marker, the audio selection passes it on unchanged, the run is full, the packet is no filtered table or clock break, the target is reached and no table prefix is cached |
| `HlsPanic.PanicMeansRemap` | crates/ace-engine/src/hls.rs:540-555 | in every run, a panicked packager has a PAT in its last segment, or in the packet that forced it out, that names another first program than the segment's own PAT |
| `TsTables.CurrentSection` | crates/ace-media/src/mpegts.rs:897-909 | a section that is read lies inside its packet, behind its header and before its checksum |
| `TsTables.SeveralProgramsPass` | crates/ace-media/src/audio.rs:214-276 | a PAT that names anything but one program, whatever its checksum, passes the audio selection whole and leaves it without a program or a clock |
| `TsSamples.PatFields` | crates/ace-media/src/mpegts.rs:911-929 | a PAT of two programs parses to its first one |
| `TsSamples.PmtFields` | crates/ace-media/src/mpegts.rs:939-968 | a PMT with one H.264 stream parses to its PID and codec |
| `HlsRename.RenamePanics` | crates/ace-engine/src/hls.rs:540-555 | for every media analysis and all limits with room for four packets, a stream that the audio selection passes through and that renames its program inside a run panics a fresh packager on the next packet past the target |
| `HlsPanicExample.PanicHappens` | crates/ace-engine/src/hls.rs:544-547 | with the packager's own parsers, a transport of two programs panics every accepted configuration with room for four packets and a target within half the clock's range |
| `HlsCapture.CapturesExactly` | crates/ace-engine/src/hls.rs:381-565 | taking a packet captures the clock if and only if the run is full, the packet has no marker and is an upstream SDT packet with a PCR, and no PCR has started the clock |
| `HlsCaptureExample.ResetGoesUnnoticed` | crates/ace-engine/src/hls.rs:502-555 | for every media analysis and all limits with room for four packets, every stream of that shape publishes an unflagged segment across a reset of the video's clock |
| `HlsCaptureExample.ResetHappens` | crates/ace-engine/src/hls.rs:502-555 | with the packager's own parsers, under every accepted configuration with room for four packets and a target within a quarter of the clock's range |
| `HlsRestart.RestartUnflagged` | crates/ace-engine/src/hls.rs:163-190 | for every media analysis and all limits with room for four packets, an opening fed before and after a generation that begins as a first start ends in an unflagged segment that continues nothing |
| `HlsRestart.RestartHappens` | crates/ace-engine/src/hls.rs:163-190 | with the packager's own parsers, under every accepted configuration with room for four packets |
| `HlsPackager.SegmentWindow.Publish` | crates/ace-engine/src/hls.rs:608-631 | the eviction loop and the push keep the window on the newest entries of the log, at most the configured number, with sequence numbers, counted flags and maximum duration exact |
| `HlsPackager.SegmentWindow.Retained` | crates/ace-engine/src/hls.rs:748-755 | a number is served exactly while it is retained, with the bytes it was published with |
| `HlsPackager.Packager.constructor` | crates/ace-engine/src/hls.rs:93-144 | a new packager meets the invariant, untitled when the ceiling cannot hold a title |
| `HlsPackager.Packager.ScanAll` | crates/ace-engine/src/hls.rs:390-498 | the loop terminates, with every packet scanned, in the model's scan result |
| `HlsPackager.Packager.LearnTables` | crates/ace-engine/src/hls.rs:367-371 | the loop observes every table once, in order |
| `HlsPackager.Packager.TakeSource` | crates/ace-engine/src/hls.rs:349-377 | one source packet leaves the packager at rest, or panicked with its run already emitted, and is the model's intake of it |
| `HlsPackager.Packager.FeedLocked` | crates/ace-engine/src/hls.rs:335-379 | the byte loop keeps the invariant, records only whole source packets under its tag, changes nothing published, and computes the model's byte intake |
| `HlsPackager.Packager.Drive` | crates/ace-engine/src/hls.rs:163-333 | any sequence of calls on the object is a run of the model and keeps its invariant, so every theorem above is about the object |
| `Ts.RebaseIsZero` | crates/ace-media/src/mpegts.rs:84-114 | a clock restarted at a segment boundary reads zero there and observing the boundary again does not move it |
| `Ts.ClearMarkerClears` | crates/ace-engine/src/hls_audio.rs:738-742 | clearing a discontinuity marker clears it and keeps PID and PCR |
| `TsFields.PcrExact` | crates/ace-media/src/mpegts.rs:24-58 | the clock reference read from a packet is the one its adaptation field was written with (section 2.4.3.4 of ISO/IEC 13818-1) |
| `TsFields.MarkerExact` | crates/ace-media/src/mpegts.rs:24-58 | PID and discontinuity indicator are read as written; without an adaptation field there is no timing, with an empty one only the PID |
| `TsFields.ContentExact` | crates/ace-engine/src/hls_audio.rs:72-88 | the probe takes exactly the payload of its own stream's packets: none of other streams, of damaged packets and of packets without payload; scrambled ones are refused |
| `TsFields.PesExact` | crates/ace-engine/src/hls_audio.rs:104-126 | a PES header is accepted if and only if it has the start code, an audio stream id, the marker bits, no scrambling, no lone decoding time stamp, and an open length or one that covers its optional part |
| `HlsWorker.WorkerInStep` | crates/ace-engine/src/hls_audio.rs:362-602 | whatever happens around a worker, its failures and its end included, it never restarts unannounced, and the packager runs the limiter's generation unless it is closed or panicked |
| `HlsWorker.WorkerSeamless` | crates/ace-engine/src/hls_audio.rs:362-602 | over a worker's whole life every segment that is neither first nor flagged continues the one before it |
| `MpegProbe.FrameSize` | crates/ace-engine/src/hls_audio.rs:155-197 | every supported header has a size in 24..2881, so skipping its four bytes cannot underflow |
| `MpegProbe.FrameSizeExact` | crates/ace-engine/src/hls_audio.rs:155-197 | for every combination of header fields: which headers are supported, their signature, and that a frame besides its padding is the whole part of its samples (1152, or 576 in Layer III below MPEG-1) over eight times bit rate over sample rate |
| `MpegProbe.BitRates` | crates/ace-engine/src/hls_audio.rs:170-183 | laws that determine every bit rate: MPEG-1 Layer III starts 32, 40, 48, 56 and doubles every four steps, Layer II runs one step ahead of it between its ends, and the lower rates climb by 8 up to 64 and then by 16 |
| `MpegProbe.SampleRates` | crates/ace-engine/src/hls_audio.rs:184-189 | the three MPEG-1 rates, halved for MPEG-2 and again for MPEG-2.5 |
| `MpegProbe.EsTracks` | crates/ace-engine/src/hls_audio.rs:130-148 | the byte automaton accepts exactly the elementary streams whose computed frame chain parses with one signature, and counts their headers up to two (section 2.4.2.3 of ISO/IEC 11172-3) |
| `MpegProbe.ByteTracks` | crates/ace-engine/src/hls_audio.rs:100-150 | after each byte the probe goes on exactly when the whole-stream parser accepts the PES packets so far (section 2.4.3.6 of ISO/IEC 13818-1) |
| `MpegProbe.ProbeExact` | crates/ace-engine/src/hls_audio.rs:31-153 | over every packet sequence the probe rejects exactly when the whole-stream parser does and has two headers exactly when the parser finds two |
| `MpegProbe.SplitIndependent` | crates/ace-engine/src/hls_audio.rs:72-152 | the verdict depends on the PES bytes, not on how packets cut them |
| `MpegProbe.Validate` | crates/ace-engine/src/hls_audio.rs:287-301 | a sound packet with payload leaves at least one payload byte behind its adaptation field |
| `MpegProbe.MpegAudioProbe.constructor` | crates/ace-engine/src/hls_audio.rs:46-61 | a new probe has seen nothing |
| `MpegProbe.MpegAudioProbe.Observe` | crates/ace-engine/src/hls_audio.rs:62-71 | rejection and the two-header answer are those of the whole-stream parser on everything observed so far, and rejection is final |
| `MpegProbe.MpegAudioProbe.ObserveInner` | crates/ace-engine/src/hls_audio.rs:72-152 | one packet moves the fields as the automaton does |
| `MpegProbe.MpegAudioProbe.TakePayload` | crates/ace-engine/src/hls_audio.rs:100-150 | the byte loop stops at the first rejected byte |
| `MpegProbe.MpegAudioProbe.TakeOne` | crates/ace-engine/src/hls_audio.rs:101-132 | one byte in the fixed header buffer, the optional header, the stuffing or the payload |
| `MpegProbe.MpegAudioProbe.TakeData` | crates/ace-engine/src/hls_audio.rs:130-148 | one payload byte in the frame chain |
| `Recovery.FourSpanAMinute` | crates/ace-engine/src/hls_audio.rs:330-352 | any four accepted invalidations span at least sixty seconds |
| `Recovery.RefusedExactly` | crates/ace-engine/src/hls_audio.rs:330-352 | a call is refused if and only if three were accepted within the last sixty seconds and it is not a paired marker |
| `Recovery.MarkersAbsorbed` | crates/ace-engine/src/hls_audio.rs:330-355 | after a source event is accepted in any history, any number of transport markers before the opening returns its generation and changes nothing |
| `Recovery.PairedExactly` | crates/ace-engine/src/hls_audio.rs:330-358 | in any history a marker is absorbed if and only if the last call that opened a generation was a source event and none has opened since; after any other accepted reason markers count again |
| `Recovery.GenerationsCount` | crates/ace-engine/src/hls_audio.rs:346-351 | the ledger grows by exactly the calls that were answered with a generation of their own |
| `Recovery.RecoveryWindow.constructor` | crates/ace-engine/src/hls_audio.rs:317-325 | generation one, nothing accepted |
| `Recovery.RecoveryWindow.Invalidate` | crates/ace-engine/src/hls_audio.rs:330-352 | the deque answers as the full ledger does for every order-respecting sequence of calls, and the generation is one plus the number accepted |
| `Recovery.RecoveryWindow.Opening` | crates/ace-engine/src/hls_audio.rs:353-355 | ends the pairing and nothing else |
| `Magnet.Digit32` | crates/ace-engine/src/magnet.rs:50-51 | the value of exactly the alphabet characters, in either case |
| `Magnet.ShiftKeepsLow` | crates/ace-engine/src/magnet.rs:52-52 | the bits that leave the 16-bit accumulator never belong to the pending ones |
| `Magnet.Base32Decode` | crates/ace-engine/src/magnet.rs:41-66 | succeeds on exactly 32 alphabet characters, with the 20 bytes that spell the same number |
| `Magnet.EncodeValue` | crates/ace-engine/src/magnet.rs:39-41 | the encoding of section 6 of RFC 4648 spells the number its bytes spell |
| `Magnet.RoundTrip` | crates/ace-engine/src/magnet.rs:41-66 | for every 20-byte value and any mix of cases, the one decoding of its encoding is the value |
| `Magnet.HexSpells` | crates/ace-swarm/src/resolve.rs:351-353 | the hex of any bytes spells, digit by digit, the number the bytes spell |
| `Magnet.Normalize` | crates/ace-engine/src/magnet.rs:27-37 | 40 hex digits or 32 base32 characters become the 40 lowercase hex digits that spell the same number, everything else is refused |
| `Magnet.CanonicalUnique` | crates/ace-engine/src/magnet.rs:27-37 | a number has at most one such spelling |
| `Magnet.SpellingsAgree` | crates/ace-engine/src/magnet.rs:27-37 | every hex or base32 spelling of an info-hash, in any mix of cases, has one canonical form, and it spells the number of the info-hash's bytes |
| `Broadcast.Extension` | crates/ace-engine/src/broadcast.rs:229-237 | the extension is the least whole number of blocks that covers the piece, and is refused only where the index space ends |
| `BroadcastInvariants.LoadInv` | crates/ace-engine/src/broadcast.rs:1546-1706 | resuming at the end of the loaded reservation, minting an identity, or refusing what does not fit keeps the invariant |
| `BroadcastInvariants.SaveInv` | crates/ace-engine/src/broadcast_persist.rs:111-168 | every filesystem operation of a save, and its failure, keeps the invariant |
| `BroadcastInvariants.ConsumeInv` | crates/ace-engine/src/broadcast.rs:224-242 | consuming a reserved piece or asking for a reservation keeps the invariant |
| `BroadcastInvariants.GrantInv` | crates/ace-engine/src/broadcast.rs:214-222 | raising the reservation after a successful save keeps the invariant |
| `BroadcastInvariants.StoreInv` | crates/ace-engine/src/broadcast_ingest.rs:219-262 | storing a chunk keeps the invariant |
| `BroadcastInvariants.AcquireInv` | crates/ace-engine/src/broadcast.rs:707-767 | replacing a retired producer keeps at most one attempt per open broadcast |
| `BroadcastInvariants.LeaveFlushInv` | crates/ace-engine/src/broadcast.rs:248-251 | a flush that is cancelled while its write runs on keeps the invariant |
| `BroadcastInvariants.DeleteInv` | crates/ace-engine/src/broadcast_persist.rs:223-242 | every filesystem operation of a deletion, and its failure, keeps the invariant |
| `BroadcastTheorems.StepInv` | crates/ace-engine/src/broadcast.rs:186-251 | every step of every kind keeps the invariant |
| `BroadcastTheorems.RunInv` | crates/ace-engine/src/broadcast.rs:186-251 | and so does every run |
| `BroadcastTheorems.NoIndexReuse` | crates/ace-engine/src/broadcast_ingest.rs:201-278 | under one identity two chunks with one piece index come from one ingest attempt, and a later attempt or process lifetime only publishes higher indexes, over all failures, cancellations, crashes and restarts |
| `BroadcastTheorems.WriteAhead` | crates/ace-engine/src/broadcast.rs:186-242 | at every moment every content that may survive a crash is whole and reserves past every chunk stored under its identity; until its record is unlinked, an entry's own record is all that survives, open, poisoned or closed, and reserves at least what its cursor may hand out |
| `BroadcastTheorems.RestartAccepts` | crates/ace-engine/src/broadcast.rs:1546-1706 | a restart refuses a record this program wrote if and only if the key, descriptor or configuration does not fit or the index space ends; otherwise it goes on at the end of everything reserved |
| `BroadcastTheorems.MarkNeverDecreases` | crates/ace-engine/src/broadcast.rs:184-251 | once a save is synced, and until an unlink succeeds, every content that may survive is a whole record of that identity reserving at least as much, and the record is never missing, with concurrent and cancelled flushes, failures, crashes and restarts in between |
| `BroadcastTheorems.FloorNeverDrops` | crates/ace-engine/src/broadcast.rs:184-251 | across deletions too, whatever record of the identity may survive later reserves at least as much |
| `BroadcastTheorems.NoResurrection` | crates/ace-engine/src/broadcast.rs:1288-1385 | once a deletion reports success, no run that follows restores a record of an earlier identity or stores a chunk under one |
| `BroadcastStop.StopSettles` | crates/ace-engine/src/broadcast.rs:1288-1385 | in every run, the step that takes an entry out of a requested deletion leaves it refused, after a failed filesystem operation, or reported with nothing but the record's absence able to survive and the name free; any other stop is reported with the record untouched |
| `BroadcastTheorems.CheckStaysFailed` | crates/ace-engine/src/broadcast.rs:162-173 | a failed check never succeeds again |
| `BroadcastTheorems.FailureIsFinal` | crates/ace-engine/src/broadcast.rs:162-222 | after a failed save, a cancellation or a close, an entry stores at most the one chunk whose last check had passed |
| `BroadcastPublisher.Publisher.Initialize` | crates/ace-engine/src/broadcast.rs:1633-1753 | on success the cursor starts at the end of everything reserved before, or at zero under a fresh identity, and only its first saved reservation survives; on failure there is no cursor |
| `BroadcastPublisher.Publisher.Prepare` | crates/ace-engine/src/broadcast.rs:307-321 | an empty process reaches an open ingest that starts at the cursor and may publish |
| `BroadcastPublisher.Publisher.SaveRecord` | crates/ace-engine/src/broadcast_persist.rs:111-168 | whichever operation fails, the cursor is poisoned; on success only the new record survives |
| `BroadcastPublisher.Publisher.ConsumeNext` | crates/ace-engine/src/broadcast.rs:224-242 | on success the piece is behind the cursor and reserved; on failure the job can only end |
| `BroadcastPublisher.Publisher.Extend` | crates/ace-engine/src/broadcast.rs:186-222 | saving and raising the reservation, or failing without raising it |
| `BroadcastPublisher.Publisher.PublishNext` | crates/ace-engine/src/broadcast_ingest.rs:219-262 | one chunk is stored, or none |
| `BroadcastPublisher.Publisher.StoreOutputs` | crates/ace-engine/src/broadcast_ingest.rs:201-291 | stores exactly a prefix of the outputs in order, all of them on success, whichever operation fails and wherever between its saves a stop is requested, as a run of the protocol, and frees the publication lock; after a successful checkpoint only the final position survives |
| `BroadcastPublisher.Publisher.FlushRecord` | crates/ace-engine/src/broadcast.rs:248-251 | a flush saves exactly the cursor's position, which is then all that survives, or poisons the cursor |
| `BroadcastPublisher.Publisher.Replace` | crates/ace-engine/src/broadcast.rs:707-767 | a finished producer gives way to another whose ingest starts at the cursor and may publish |
| `BroadcastPublisher.Publisher.DetachSource` | crates/ace-engine/src/broadcast.rs:1008-1080 | a detached source makes room for another producer at once and leaves the cursor alone |
| `BroadcastPublisher.Publisher.StopBroadcast` | crates/ace-engine/src/broadcast.rs:1288-1385 | a stop asked to delete succeeds only with nothing but the record's absence able to survive and frees the name, and otherwise is refused and may be repeated; one not asked to delete always succeeds and leaves the record alone |
| `BroadcastPublisher.Publisher.DeleteRecord` | crates/ace-engine/src/broadcast_persist.rs:223-242 | unlinking and syncing, whichever fails |
| `ManagerInvariants.FinishOthers` | crates/ace-engine/src/manager.rs:36-46 | ending a transition removes that generation only, and no empty entry stays |
| `ManagerInvariants.RegisterCore` | crates/ace-engine/src/manager.rs:659-698 | registering a start keeps the invariant |
| `ManagerInvariants.DecideCore` | crates/ace-engine/src/manager.rs:1017-1038 | the publication fence keeps the invariant, whichever way it falls |
| `ManagerInvariants.PublishCore` | crates/ace-engine/src/manager.rs:1160-1175 | publication keeps the invariant, and a start with a source always inserts |
| `ManagerInvariants.StopCore` | crates/ace-engine/src/manager.rs:1239-1256 | cancelling every pending start keeps the invariant |
| `ManagerInvariants.ReapSessionsCore` | crates/ace-engine/src/manager.rs:1321-1361 | reaping keeps every session a pending start may have seen |
| `ManagerInvariants.ReleaseCore` | crates/ace-engine/src/manager.rs:773-837 | so does releasing the last pin |
| `ManagerTheorems.StepInv` | crates/ace-engine/src/manager.rs:659-1457 | every step of every kind keeps the invariants |
| `ManagerTheorems.RunInv` | crates/ace-engine/src/manager.rs:659-1457 | and so does every interleaving |
| `ManagerTheorems.PublicationHasSource` | crates/ace-engine/src/manager.rs:1160-1175 | no interleaving makes an HLS start find neither its session nor a source |
| `ManagerTheorems.SeenSessionStays` | crates/ace-engine/src/manager.rs:1131-1150 | a session seen under the start lock is still the published one at finalization, unless the start was cancelled or shutdown began |
| `ManagerTheorems.PackagersMatch` | crates/ace-engine/src/manager.rs:1176-1199 | whenever the finalization lock is free each packager's key has a session, the one the packager was built from |
| `ManagerTheorems.SingleFlight` | crates/ace-engine/src/manager.rs:956-1042 | per key one start at a time holds a source, and only while the key has no session |
| `ManagerTheorems.StopFence` | crates/ace-engine/src/manager.rs:1239-1269 | a session or packager published after a stop of its key was registered after that stop |
| `ManagerTheorems.CancelledByStop` | crates/ace-engine/src/manager.rs:1244-1256 | only a stop that came after its registration cancels a start |
| `ManagerTheorems.NothingLeftBehind` | crates/ace-engine/src/manager.rs:29-108 | cancelled starts are pending ones, and without a start in flight both sets are empty |
| `ManagerTheorems.ShutdownIsFinal` | crates/ace-engine/src/manager.rs:1417-1457 | neither a session nor a packager is published once shutdown has set its flag |
| `ManagerTheorems.ReservationsExact` | crates/ace-engine/src/admission.rs:9-48 | the counter is the number of live reservations, never exceeds the cap, each has the one owner that points back to it, and it is zero when all owners are gone |
| `ManagerStarts.FenceExactly` | crates/ace-engine/src/manager.rs:1017-1041 | in every run, a start at the fence goes on to publish if and only if it was not withdrawn, its caller did not cancel, no stop of its key came after it registered, and shutdown has not begun; otherwise the lock is free and its source is about to be disposed of |
| `ManagerStarts.AdmissionExact` | crates/ace-engine/src/admission.rs:23-40 | in every run, a start that finds no session opens a source, on a reservation of its own, if and only if fewer resources than the cap are alive |
| `ManagerStarts.ReservationsMove` | crates/ace-engine/src/admission.rs:23-48 | in every run, each step takes or gives back exactly the reservation it should: a source that ends cleanly, fails to open or loses its last handle gives it back, one whose shutdown fails keeps it |
| `ManagerStarts.Starter.StartKey` | crates/ace-engine/src/manager.rs:1131-1199 | with a session there, or room and a provider that opens, the key has a session afterwards and for HLS a packager of that session; otherwise nothing has changed for clients |
| `ManagerSections.RemoveKeys` | crates/ace-engine/src/manager.rs:1353-1359 | the removal loop removes exactly the given keys |
| `ManagerSections.StreamManager.StopKey` | crates/ace-engine/src/manager.rs:1239-1269 | the section is the three stop steps |
| `ManagerSections.StreamManager.ReapIdle` | crates/ace-engine/src/manager.rs:1321-1379 | the section removes the idle sessions no start awaits and then the packagers left over |
| `ManagerSections.StreamManager.ReleaseSupport` | crates/ace-engine/src/manager.rs:773-837 | retires the session exactly when there is no demand, no pending start and no replacement |
| `ManagerSections.StreamManager.ShutDown` | crates/ace-engine/src/manager.rs:1417-1447 | the section sets the flag before its loops drain both maps, leaves nothing visible, and is the three shutdown steps |

## Left out

- The runtime: task scheduling, wakeups, timeouts and joins are steps that may happen at any time; where the source waits for more than the model does, the model allows more.
- f32 rounding of durations: ticks are used instead.
- HlsDurations.DurationExact: a segment whose clock was seized is timed by dropped packets, and its duration is only known to reach the target.
- Table, access-point and audio-selection parsing: arbitrary functions in the packager's theorems, so their own correctness is not stated; `TsTables` writes out what the reachability results need, and leaves finding pictures in payload, building an SDT and following a single program arbitrary.
- The FFmpeg child, its pipes and its input budget; the worker's output is any sequence of fenced feeds.
- HTTP handlers, command line, playlist text, VOD layout, rate meters, status writers and option parsing: they would only add easy members.
- HlsPackager.Packager: the mutex-protected struct is one field of the object, and its straight-line handlers are the functions of `HlsModel`; only the loops and the segment window are written as methods, so in-place updates of the packet buffer are not captured.
- Recovery.RecoveryWindow.Invalidate: asks for call times that never go back, which the monotonic clock guarantees.
- Broadcast: one name is modelled, since names share neither locks nor files; records without `reserved_until` and broadcasts without persistence are not.
- Broadcast: a failed rename or unlink leaves the name as it was, and a directory that is missing altogether counts as synced; weaker directory guarantees on Windows are not modelled.
- Broadcast: signing, chunk contents, store eviction, announcing and the cutting of bytes into pieces are not modelled; an ingest may ask for any pieces at or past its start.
- BroadcastPublisher.Publisher.StoreOutputs: no stop is requested while one of its saves runs; such requests are steps of the protocol.
- Manager: the weak table of start locks is a lock per key, and which sessions are idle is arbitrary; support controls appear only as a start that may withdraw.
- ManagerSections.StreamManager: the sections run without other tasks in between; the step relation lets them interleave.
- ManagerStarts.Starter: the same holds for its starts.
- Magnet: splitting a magnet link into parameters.
