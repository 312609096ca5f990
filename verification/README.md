# Verified model of the FPGA/Pi network intrusion detector

This project states and proves, in Dafny, what the detector's components do over whole runs. It
follows the repository's own split: Python twins and host programs on one side, clocked Verilog on
the other.

- **Windowed sketches** (`CountMin.dfy`, `HyperLogLog.dfy`, `Telemetry.dfy`). The Count-Min sketch,
  the HyperLogLog and the telemetry around them are classes whose methods update their fields as the
  Python does; a run is a sequence of packets and ticks (`Stream.dfy`). The fast incremental form (lazy
  4-bit epoch tags, running sums, running top source) is compared with the definitional one: the
  packets of the current window.
- **Per-source tables** (`FlowTable.dfy`, `ScanRate.dfy`). What each cell holds after any stream, what
  an alarm means, who can share state with whom, and how the new table relates to the old one.
- **Clocked machines** (`CmsCore.dfy`, `HllCore.dfy`, `TelemetryCore.dfy`, `FlowCore.dfy`,
  `BloomCore.dfy`, `SpiSlave.dfy`, `Echo.dfy`). One clock edge is one step in which every register
  takes a function of the old values. Each machine is driven from reset, and what it presents is tied
  to a sequential specification. `Master.dfy` is the other end of the link.
- **Closed loop** (`Wire.dfy`, `Device.dfy`, `Link.dfy`, `RuleStore.dfy`, `Orchestrator.dfy`,
  `HotLoad.dfy`). The device at frame granularity behind a link that returns each reply one transfer
  late, with window ticks falling anywhere between frames, and the host loops that run over it.
- **The design on clock edges** (`NidsTop.dfy`, `Classifiers.dfy`, `Fpga.dfy`, `Chip.dfy`,
  `Board.dfy`). The top level with its control pipeline, the classifier pipeline over the clocked
  stages, both together, then with the telemetry, then behind the SPI slave: for frames at least
  eleven edges apart and windows that end on any edges but the five on which a classify frame's packet
  is being counted, what the pins read back is what the frame-level device replies.
- **Checks** (`Bloom.dfy`, `Ber.dfy`, `SiliconCheck.dfy`, `Reference.dfy`, `GoldenStream.dfy`,
  `GoldenVerdicts.dfy`, `Vectors.dfy`). The Bloom filter and its memory image, the link's error
  accounting, the judgement of a silicon run, the CPU reference classifier against the device, the
  golden stream that the silicon check clocks with the frames of it that are reported, and the
  published frame vectors.

Functions that both a machine and its specification use (hashes, the SYN gate, the thresholds a verdict
is compared with, frame layouts) are each tied down once more without naming them: by the arithmetic
they stand for, by the bits on the wire, by a count, or by a published value.

A window is called *clean* when, at its start, every cell or register tagged with the new epoch number
holds zero. `dafny verify dfyconfig.toml` checks the whole project.

## Where the code differs from its documentation

- `flow_table_model.py:1-3` and `fpga/src/flow_table.v:3-4` promise that colliding sources are never
  merged silently. Two sources with the same bucket and the same fingerprint are
  (`FlowTable.InseparablePair`); `FlowTable.MixIffInseparable` gives the exact condition.
- The lazy reset of the sketches is described as a reset on every tick (`fpga/src/cms.v:3-4`). The tag
  has four bits, so a cell comes back to life when a later window reuses the number of the window that
  last wrote it (`CountMin.StaleCountReturns`); `NextWindowIsCleanIff` in both sketches gives the exact
  condition.
- The step 3-4 design note asks the flow table to produce the old table's outputs whenever nothing
  collides. The old packet counter saturates at 255, the new one at 16383, so this holds exactly for
  rate thresholds that both counters reach or neither does (`ScanRate.AgreementIff`; on frames,
  `Reference.OtherRatesDiffer`).
- `fpga/src/flow_table.v:107` compares the byte sum with its maximum at 24 bits, so it never
  saturates: the total wraps (`FlowCore.StoredExactIff`; 257 packets of 65535 bytes are enough,
  `FlowCore.ByteTotalsComeApart`).
- `docs/audit-followups.md` says that a tick during phase 1 or 2 of an update in `cms.v` loses the
  packet's count. The operation takes effect at its phase-2 edge, before a tick on that edge and after
  any earlier one (`CmsCore.RunCore`): after an earlier tick it is counted in the new window. On the
  phase-2 edge itself it is counted with the old tag, in the window just closed: no query reads it until
  that window's number is reused (`CountMin.StaleCountReturns`). That is the case the note describes.
- The same note's second hazard is real, and the only way the totals lose a packet: one offered on the
  very edge that ends a window (`TelemetryCore.NoneIsLostIff`). But the note stops short. A tick on any of
  a packet's five edges leaves a state that neither order of packet and tick leaves, except on the last
  when the packet raises no register and does not lead (`TelemetryCore.CollisionIsTwinIff`, with a first
  packet after reset as the witness for every edge). On the edge two or three after the acceptance the new
  window's leader has the closed window's estimate, although its sketch has not counted the packet; on
  the last a packet that should lead leads neither window (`TelemetryCore.NextLeader`,
  `SnapshotDuringService`). On that edge `hll.v` also tears: if it raises a register, registers and
  aggregates are those of no order (`HllCore.TearsIff`, `HllCore.FirstPacketTears`).
- `Device.EscalatesIffThreat`: the separate action bit in `fpga/src/classifiers.v:86` never changes the
  escalate flag, because the action is zero unless the rule matches.
- `PROTOCOL.md:49` reserves mask bits 3 to 7. Encoder and decoder use bit 3 for a rule match
  (`verdict.py:61-78`; `Wire.VerdictLayout`, `Wire.VerdictReads`).

## Model

| member | source | states |
|---|---|---|
| CountMin.CountMin.Update | cms.py:25-29 | the new state is the old one with each row's cell for the source retagged and one higher, capped at 16383; nothing else changes |
| CountMin.CountMin.PointQuery | cms.py:31-32 | the smallest of the source's five live cells |
| CountMin.ColumnSplits | cms.py:8-19 | column j of an address is the top twelve bits of the low word of its product with the j-th of the five mixers |
| CountMin.RowsDiffer | cms.py:8 | no two rows hash alike: each pair puts source 1 in different columns |
| CountMin.CountMin.WindowTick | cms.py:34-35 | only the epoch moves, modulo 16 |
| CountMin.CellCounts | cms.py:21-29 | in every window of every run, clean or not, each cell reads what it read at the window's start plus the packets hashing to it, capped |
| CountMin.CleanWindowIsExact | cms.py:21-29 | in a clean window each cell equals exactly the packets of the window hashing to it, capped |
| CountMin.NeverUnderestimates | cms.py:21-32 | over any packets and ticks, epoch wrap included, the point query is at least min(true count this window, 16383) |
| CountMin.TagIsLastWrite | cms.py:21-35 | a cell's tag is the 4-bit number of the window that last wrote it, and its count is then nonzero |
| CountMin.TickResetsCellIff | cms.py:21-35 | a tick makes a cell read 0 exactly when the new window does not reuse the number of the window that last wrote it |
| CountMin.NextWindowIsCleanIff | cms.py:21-35 | a window starts clean if and only if that holds of every cell |
| CountMin.FirstSixteenWindowsAreClean | cms.py:34-35 | the first sixteen windows of any run start clean |
| CountMin.StaleCountReturns | cms.py:21-35 | the reset is false in general: one packet and sixteen ticks later the source still reads 1 |
| HyperLogLog.Fmix32IsPermutation | hll.py:15-22 | fmix32 has a two-sided inverse on the 32-bit words (each step undone, last first) |
| HyperLogLog.HashSplits | hll.py:55-59 | register and rank bits lose nothing of the hash: it is the register's index times 2^21 plus the rank bits |
| HyperLogLog.SourcesAreToldApart | hll.py:15-22 | so sources with the same register and the same rank bits are the same source |
| HyperLogLog.KnownHashes | hll.py:15-22 | the hashes of 10.0.0.57 and 10.0.0.60, two sources whose hashes agree in their low eleven bits and not in their top ones |
| HyperLogLog.Rank | hll.py:25-33 | the shifting loop ends and returns the position of the leftmost one among 21 bits, 22 for zero |
| HyperLogLog.RankBounds | hll.py:25-33 | 1 <= rank <= 22, 22 exactly for zero, and 2^(21-rank) <= w < 2^(22-rank) otherwise |
| HyperLogLog.HyperLogLog.Update | hll.py:55-65 | a packet changes at most its own register, to a higher rank, and both aggregates by exactly that change |
| HyperLogLog.HyperLogLog.WindowTick | hll.py:70-73 | the epoch moves modulo 16 and both aggregates return to their empty values, the registers untouched |
| HyperLogLog.AggregatesDrift | hll.py:51-73 | in every reachable state both incremental aggregates differ from the definitional ones by exactly what was live at the window's start |
| HyperLogLog.AggregatesExactIffClean | hll.py:51-73 | harmonic_sum is the sum of 2^(32 - live rank) over the 2048 registers, and zeros the number of live ranks 0, exactly when the window started clean |
| HyperLogLog.AggregatesInRange | hll.py:36-41 | clean or not, 2^21 <= harmonic_sum <= 2^43 and 0 <= zeros <= 2048, so the divisor of the estimate is never zero |
| HyperLogLog.TouchRaises | hll.py:55-65 | a packet raises its source's register to the source's rank if that is higher, and no other register |
| HyperLogLog.RegistersHoldMaxRank | hll.py:51-65 | in a clean window every register holds the largest rank among the window's sources in its bucket |
| HyperLogLog.OnlyTheSourceSetMatters | hll.py:51-65 | clean windows with the same set of sources, in any order and multiplicity, have the same registers and aggregates |
| HyperLogLog.TickEmptiesRegisterIff | hll.py:51-73 | a tick empties a register exactly when the new window does not reuse the number of the window that last touched it |
| HyperLogLog.NextWindowIsCleanIff | hll.py:51-73 | a window starts clean if and only if that holds of every register |
| HyperLogLog.FirstSixteenWindowsAreClean | hll.py:70-71 | the first sixteen windows of any run start clean |
| Telemetry.Telemetry.Update | telemetry_model.py:23-30 | both sketches, the total and the top source move together to the specified state; the top source changes only on a strictly larger estimate |
| Telemetry.Telemetry.WindowTick | telemetry_model.py:35-49 | the snapshot holds the values before the reset; both sketches tick, the index counts modulo 65536 |
| Telemetry.TopSandwich | telemetry_model.py:23-30 | in every reachable state and for every source, min(true count, 16383) <= top1_count <= point_query(top1_key), and top1_key was seen once any packet was |
| Telemetry.CleanEstimateExact | telemetry_model.py:32-33 | in a clean window a source that is alone in some row is estimated exactly, up to the cap, whatever the other sources do |
| Telemetry.TopIsFirstToReachMax | telemetry_model.py:23-30 | in a clean window where every source has a row to itself and none passes 16383, the top source is the first to reach the largest true count |
| Telemetry.LatchedIsClosed | telemetry_model.py:36-49 | after any run the snapshot is that of the last window that ended, and there is none before the first |
| Telemetry.LatchedCountIsTrue | telemetry_model.py:36-49 | and when that window started clean and its leader had a row to itself, the latched count is the leader's true count, capped at 16383 |
| Telemetry.CleanWindowReadsLikeFresh | telemetry_model.py:35-49 | in a clean window every cell, register and running field reads as in a new telemetry fed the window's packets alone |
| Telemetry.WindowsAreIndependent | telemetry_model.py:35-49 | the snapshot of a clean window is that of such a new telemetry, but for its index, which is the number of ticks modulo 65536 |
| Telemetry.PacketsAreConserved | telemetry_model.py:26-47 | over any run the latched totals plus the current total equal the number of updates |
| CmsCore.WriteEdge | fpga/src/cms.v:80-96 | the phase-2 edge applies the atomic operation, before a tick on the same edge, and registers the values its answer is the minimum of |
| CmsCore.CmsCore.Posedge | fpga/src/cms.v:50-110 | each clock edge keeps the invariant that banks and epoch are the sequential sketch, and presents at most one answer |
| CmsCore.RunCore | fpga/src/cms.v:50-110 | for every interleaving of update, query and tick pulses the done pulses carry what the atomic sketch answers to the accepted operations in phase-2 order, and the banks end as that sketch |
| HllCore.Rank21 | fpga/src/hll.v:30-36 | the priority scan from the top bit finds the twin's rank |
| HllCore.WriteIsTouch | fpga/src/hll.v:74-80 | what phase 4 writes, in 9, 48 and 12 bits, is the atomic sketch's packet, in every reachable state |
| HllCore.TearsIff | fpga/src/hll.v:54-80 | packet and tick on one edge are the packet first and then the tick exactly when no register is raised, and never the tick first |
| HllCore.FirstPacketTears | fpga/src/hll.v:54-80 | a raise does meet a tick: the window that ends four edges after the first packet's acceptance |
| HllCore.Edge | fpga/src/hll.v:47-86 | each edge performs at most one packet, tick or both of the sequential core, whatever the inputs; after a history without a tear the registers are those of the packet first and then the tick if and only if this edge does not end a window while phase 4 raises a register, and when it does they are not those of the tick first either |
| HllCore.RunCore | fpga/src/hll.v:47-86 | for every interleaving of packets and ticks the core ends as the sequential one, in 48 and 12 bits; without such an edge exactly as the sequential sketch |
| TelemetryCore.Edge | fpga/src/telemetry.v:35-68 | each edge, whatever the inputs, keeps total, top source, index, snapshot and both cores what the inputs amount to |
| TelemetryCore.RunTelemetry | fpga/src/telemetry.v:35-68 | for every input sequence, however packets, queries and ticks collide: the sketches are those of the cores' linear orders, the leader the first largest presented estimate since the last tick, the total the packets since, the snapshot what a tick found; queries are answered in order |
| TelemetryCore.FairIsTwin | telemetry_model.py:23-49 | when operations do not overlap and no window ends while a packet is in service, all registers and both sketches are the twin's after the same packets and ticks |
| TelemetryCore.EstimatesAreAsked | fpga/src/telemetry.v:37-39 | then every query is answered with the twin's estimate at the third edge of its service |
| TelemetryCore.TotalsMissCoinciding | fpga/src/telemetry.v:51-67 | over any inputs the latched totals plus the current one plus the packets offered on the edge of a tick are all packets offered, modulo 2^32 |
| TelemetryCore.NoneIsLostIff | docs/audit-followups.md:36-39 | so no packet is lost from the totals exactly when none is offered on the edge of a tick (for fewer than 2^32 such edges) |
| TelemetryCore.TickDuringService | docs/audit-followups.md:30-39 | the whole state that a tick at each of a packet's five edges leaves: which window each sketch counts the packet in, both totals, and the new window's leader |
| TelemetryCore.NextLeader | fpga/src/telemetry.v:62-66 | the new window's leader by age: the packet's source with its new estimate up to age 1, with the closed window's estimate at ages 2 and 3, nobody at age 4; exactly when each is the twin's |
| TelemetryCore.CollisionIsTwinIff | docs/audit-followups.md:30-39 | the state left is that of packet and then tick exactly at age 4 when the packet raises no register and does not lead, and never that of tick and then packet |
| TelemetryCore.FirstPacketCollides | docs/audit-followups.md:51-53 | it does go wrong, at every age: a tick on any of the five edges of the first packet after reset |
| TelemetryCore.SnapshotDuringService | fpga/src/telemetry.v:51-67 | a window that ends while a packet is in service latches the twin's snapshot of packet and then tick exactly when it ends after the acceptance edge and the packet changes no register and does not take the lead; that of tick and then packet exactly on the acceptance edge |
| FlowTable.Thresholds.Write | thresholds_model.py:11-15 | an unknown id changes nothing, a known one reads back as the low 16 bits, the others are kept: after any writes every id reads the last value written to it, or its default |
| FlowTable.FlowTable.Update | flow_table_model.py:56-74 | only the source's bucket changes, to the evicted-or-kept cell after one packet; the returned pair compares that new cell with the current thresholds |
| FlowTable.RunIsLongestSuffix | flow_table_model.py:60-63 | the current run of a bucket is the longest suffix of its packets with one fingerprint and epoch number |
| FlowTable.CellsHoldRuns | flow_table_model.py:56-70 | after any stream every cell holds its bucket's current run: totals capped, bitmaps the images of the SYN packets' ports and hosts, flags the union |
| FlowTable.AlarmsAreSound | flow_table_model.py:71-74 | a scan hit implies that many distinct ports or hosts among the run's TCP packets with SYN and without ACK; the rate hit holds exactly when the threshold is at most min(run length, 16383) |
| FlowTable.AlarmsAreExact | flow_table_model.py:39-40 | and complete: the last packet is reported as a scan exactly when its run's TCP packets with SYN and without ACK reach that many distinct port or host bits, and at a rate exactly when the run reaches a threshold of at most 16383 |
| FlowTable.CellCounts | flow_table_model.py:13-16 | the cell holds its run's packets, bytes and SYN packets, capped at 2^14 - 1, 2^24 - 1 and 2^12 - 1, and every flag bit that one of its packets had |
| FlowTable.SourceSplits | flow_table_model.py:19-24 | bucket and fingerprint are bits 20 to 31 and 12 to 27 of two different products |
| FlowTable.TargetSplits | flow_table_model.py:27-32 | port and host bits are the top four bits of the low words of their products |
| FlowTable.EpochOfFrame | flow_table_model.py:35-36 | sixteen successive frames share an epoch, the window number modulo 16 |
| FlowTable.SeparableSourcesNeverMix | flow_table_model.py:19-24 | when every two sources of a stream differ in bucket or fingerprint, no cell's run mixes sources |
| FlowTable.MixIffInseparable | flow_table_model.py:1-3 | a stream that merges two sources exists exactly when bucket and fingerprint both collide (the documentation promises no merging at all) |
| FlowTable.InseparablePair | flow_table_model.py:19-24 | such a pair: 10.0.0.1 and 44.137.243.240 |
| ScanRate.ScanRateTable.Update | scan_rate.py:40-56 | only the source's bucket changes, reset first when its epoch is stale; the returned pair compares the new entry with the thresholds |
| ScanRate.ScanBucketSplits | scan_rate.py:20 | the older table's bucket is the top eight bits of the low word of the product |
| ScanRate.EntriesHoldRuns | scan_rate.py:43-52 | after any stream every entry holds its bucket's packets of the current epoch number |
| ScanRate.SameVerdictsWithoutSharing | docs/superpowers/specs/2026-05-28-step3-4-flow-and-loop-design.md:145-150 | when no two sources share a scan_rate bucket over the whole stream, or none do within one epoch and no epoch number returns, both tables return the same pair on every packet, for rate thresholds up to 255 or above 16383 |
| ScanRate.AgreementIff | docs/superpowers/specs/2026-05-28-step3-4-flow-and-loop-design.md:145-150 | on all those streams, and already on the consecutively numbered ones, they agree exactly for those rate thresholds: for any other a stream built up across epoch wraps tells the tables apart |
| ScanRate.ApartSameRun | docs/superpowers/specs/2026-05-28-step3-4-flow-and-loop-design.md:145-150 | on those streams the last packet's source has one and the same current run in both tables |
| ScanRate.SharersDiverge | scan_rate.py:43-52 | neither condition can go, not even on consecutively numbered streams: two sources that the flow table can tell apart and scan_rate cannot get different verdicts on two packets of one epoch |
| ScanRate.RevisitsDiverge | scan_rate.py:43-47 | nor the second: on a consecutively numbered stream of two sources in turn, one per epoch number, scan_rate is reset in between and the flow table is not |
| ScanRate.OlderTableReportsMore | scan_rate.py:43-56 | on streams that never revisit an epoch number every flow-table scan hit is a scan_rate scan hit, however many sources collide, and so is every rate hit for a rate threshold up to 255 |
| FlowCore.UpdatedIsAtomic | fpga/src/flow_table.v:92-112 | phase 2 writes the atomic table's cell, with the byte total kept modulo 2^24 |
| FlowCore.StoredExactIff | fpga/src/flow_table.v:107 | the stored word equals the twin's cell exactly when the run has fewer than 2^24 bytes (or its total ends in 24 ones) |
| FlowCore.ByteTotalsComeApart | fpga/src/flow_table.v:107 | they do differ: 257 packets of 65535 bytes from one source, sixteen in each round of the epoch number of a consecutively numbered stream |
| FlowCore.FlowCore.Posedge | fpga/src/flow_table.v:73-124 | each clock edge keeps memory and latches in step with the accepted packets and presents at most one pair |
| FlowCore.RunCore | fpga/src/flow_table.v:73-124 | for any input pattern the presented pairs are those of the atomic table over the packets accepted in phase 0, and every memory word holds its bucket's run |
| SpiSlave.Receive | fpga/src/spi_slave_rx.v:47-73 | the counters count the sampled bits, the shift register ends with them, and a frame is emitted exactly when the last of 256 (or a further 256) bits is sampled |
| SpiSlave.Transmit | fpga/src/spi_slave_rx.v:75-92 | the output is the bit of the latched frame numbered by the falling clock edges since selection; low when idle |
| SpiSlave.Posedge | fpga/src/spi_slave_rx.v:47-92 | both processes keep the slave's invariant over any sequence of levels; the frame is latched exactly at selection |
| Echo.EchoTop.Posedge | fpga/src/echo_top.v:21-39 | the echo register is the last complete frame and the counter the number of complete frames modulo 65536 |
| Echo.RunEcho | fpga/src/echo_top.v:21-39 | for every sequence of levels whose clock idles low, each transfer reads back the last frame completed before it, truncated transfers having emitted nothing |
| Echo.FullTransfersEcho | fpga/src/echo_top.v:2-4 | when all transfers are whole frames each one reads back the one before |
| Ber.RampErrors | ber.py:18-32 | the loop counts the frames and bits that differ at the given delay; a list of reads that ends too early is an error |
| Ber.BitDiffCounts | ber.py:31 | the bit count of two bytes is the number of positions below 8 at which they differ |
| Ber.FrameDiffCounts | ber.py:31 | that of two frames the number of (byte, bit) places at which they differ |
| Ber.BitErrorsCount | ber.py:31 | and the total is the number of (read, byte, bit) places at which a read differs from the frame sent `delay` earlier, each counted once |
| Ber.FrameErrorsCount | ber.py:26-30 | the frame count is the number of reads that differ from the frame sent `delay` earlier |
| Ber.NoErrorsIffEcho | ber.py:18-32 | no frame errors exactly when every read equals the frame sent that many transfers earlier; for frames of one length the same holds of bit errors |
| Ber.RampOverEcho | ber.py:18-32 | the ramp over the echo, with whole frames only, finds no errors at delay 1 and compares all frames but the first |
| Bloom.BloomFilter.Set | bloom.py:39-40 | exactly the addressed bit of the byte array is set |
| Bloom.BloomFilter.Add | bloom.py:45-47 | exactly the two hashed bits are set |
| Bloom.BloomFilter.Member | bloom.py:49-50 | both hashed bits are set |
| Bloom.HashesSplit | bloom.py:25-30 | the two indices are the top halves of the low words of two different products |
| Bloom.KnownIndices | test_bloom.py:15-19 | the indices of 198.51.100.1 are 0x6E03 and 0x00B7 |
| Bloom.FromIps | bloom.py:52-57 | a bit is set if and only if some added address hashes to it |
| Bloom.ImageAgrees | bloom.py:59-69 | bit i of the 16-bit word image is bit i of the byte array, for every i |
| Bloom.ToMem | bloom.py:59-69 | the loop writes the image as hexadecimal lines |
| Bloom.MemTextReadsBack | bloom.py:59-69 | reading those lines back gives the image's words |
| Bloom.LastBreakIsFree | bloom.py:60-71 | and a file without its last line break loads the same words |
| Vectors.HighBitFirst | PROTOCOL.md:12 | bytes go over the pins with their high bit first |
| Vectors.HexVectors | bloom.py:60-71 | lines have four digits, high digit first, in lower case |
| Bloom.RetainedThroughout | hot_load_bloom.py:38-41 | an address in both images is a member of every mix of them that a load goes through |
| BloomCore.BloomCore.Posedge | fpga/src/bloom_filter.v:41-85 | each clock edge keeps every latched word equal to the memory of the edge that read it |
| BloomCore.RunCore | fpga/src/bloom_filter.v:41-85 | for any queries and port-B writes the hits are the specified answers of the accepted queries and the memory is what port B wrote |
| BloomCore.QuietAnswerIsMembership | fpga/src/bloom_filter.v:62-85 | without a write during the query the answer is membership of source or destination |
| BloomCore.HeldAddressIsHit | fpga/src/bloom_filter.v:46-51 | whatever is written during the query, an address that the memory holds throughout is hit |
| HotLoad.Load | hot_load_bloom.py:38-41 | before its t-th transfer the device holds the first t new words and the old others; at the end exactly the new image, and the flush returns the last write's acknowledgement |
| HotLoad.RetainedSourceIsHit | hot_load_bloom.py:38-41 | at every point of the load a retained source's frame is reported as a Bloom hit |
| HotLoad.ReadBack | hot_load_bloom.py:45-63 | the read-back counts exactly the listed addresses that hold another word, and changes none |
| HotLoad.MismatchesCount | hot_load_bloom.py:45-63 | that count is the number of entries of the sample whose address holds another word, each counted once |
| HotLoad.Rotate | hot_load_bloom.py:17-63 | after the rotation bit i of the device is set if and only if some listed address hashes to it, any read-back finds no error, and every listed address that the old memory held was held at every transfer |
| HotLoad.RotateSets | hot_load_bloom.py:17-63 | from the memory of one address set to that of another, an address of both is held from the first transfer to the last |
| HotLoad.HeldIsHit | hot_load_bloom.py:17-63 | a frame of a held source is then reported as a Bloom hit |
| Wire.SnapshotRoundTrip | telemetry.py:66-104 | every snapshot that can be encoded decodes to itself, two fields cut to 12 and 14 bits |
| Wire.QueryRoundTrip | telemetry.py:61-95 | every query reply decodes to its key and the count cut to 14 bits |
| Wire.HllRoundTrip | telemetry.py:78-110 | every HLL reply decodes to its fields, zeros cut to 12 bits |
| Wire.VerdictRoundTrip | verdict.py:53-82 | a verdict survives, its sequence number modulo 256 |
| Wire.VerdictLayout | PROTOCOL.md:46-53 | on the wire: 0xA5, the mask with bloom, port scan, rate and rule in bits 0 to 3, severity, escalate in bit 0, the number modulo 256, zeros |
| Wire.VerdictReads | verdict.py:68-82 | and every frame is read so: each stage, severity, flag and number from exactly those bits |
| Wire.ClassifyFields | demo/scenarios.py:25-38 | a classify frame carries every field, source port included, cut to its width, where the device's parser reads it |
| Wire.RuleRoundTrip | rule_store_model.py:7-21 | a rule reads back with action and epoch cut to 8 bits and severity to 4 |
| Wire.RuleWriteFields | control.py:13-29 | a rule-write frame carries the index and the rule's nine bytes where the device reads them |
| Wire.BloomWriteFields | control.py:13-21 | a Bloom-write frame carries address and word where the device reads them |
| Wire.ThresholdWriteFields | control.py:24-25 | a threshold-write frame carries id and value where the device reads them |
| Wire.ThresholdReplyDecodes | control.py:62-64 | the device's threshold reply decodes to its id and value |
| Wire.BloomReplyDecodes | control.py:56-59 | the device's Bloom reply decodes to its address and word |
| Wire.RuleReplyDecodes | control.py:67-70 | the device's rule reply decodes to its index and rule |
| Wire.MagicDecides | telemetry.py:23-27 | each of the six telemetry and runtime decoders refuses a frame exactly when its first byte is not 0x5A |
| Vectors.VerdictVectors | VERDICT_VECTORS.md:32-33 | the first two published verdict frames |
| Vectors.StageVectors | VERDICT_VECTORS.md:34-35 | the published port-scan and rate frames |
| Vectors.WrappedVectors | VERDICT_VECTORS.md:36-39 | all stages together, a number that wraps, and the frame of zeros that is no verdict |
| Vectors.QueryVector | TELEMETRY_VECTORS.md:21 | the published query reply |
| Vectors.SnapshotVector | TELEMETRY_VECTORS.md:22 | the published snapshot reply |
| Vectors.HllVectors | TELEMETRY_VECTORS.md:23-24 | the published HLL reply, and the frame of zeros that all three refuse |
| Vectors.RequestVectors | RUNTIME_VECTORS.md:17-22 | the six published control requests |
| Vectors.ReplyVectors | RUNTIME_VECTORS.md:28-32 | the published acknowledgements and the first two read replies |
| Vectors.RuleReplyVector | RUNTIME_VECTORS.md:33 | the published rule reply |
| Vectors.HeaderVector | VERDICT_GOLDEN.md:81 | the header of the vertical scan's fifth frame |
| RuleStore.RuleStore.Write | rule_store_model.py:29-32 | an index out of range is an error that changes nothing; otherwise the cells are those of the writes so far and this one: that cell alone takes the rule, its severity cut to 4 bits |
| RuleStore.RuleStore.Read | rule_store_model.py:34-37 | an index out of range is an error; otherwise the last rule written there, cut to the stored severity, blank before the first write |
| RuleStore.RuleStore.LookUp | rule_lookup_model.py:15-19 | when all rules written fit their bytes, the answer is the one that the device's lookup gives after being sent the same writes |
| RuleStore.CellsAgreeIff | rule_store_model.py:1-2 | after any writes software store and device cells read alike at an index if and only if the last rule written there fits its bytes |
| RuleStore.LookupsAgree | rule_lookup_model.py:15-19 | when all written rules fit, both lookups answer alike for every source and epoch |
| Device.OnClassify | fpga/src/nids_top.v:104-128 | a classify frame leaves a reply that decodes to its verdict, counts its source, and leaves rules, thresholds and Bloom words |
| Device.VerdictSays | fpga/src/nids_top.v:104-128 | each bit of the verdict in terms of the registers it is read from: port scan when the source's cell holds at least threshold 0 port bits or threshold 1 host bits, rate when it holds at least threshold 2 packets, Bloom when source or destination is held, rule when the source's cell names it with the epoch of register 3 |
| Device.CellMoves | flow_table_model.py:56-74 | the source's cell counts the frame once more, on the frame's own bytes: its bitmaps and SYN count move exactly when byte 12 is 6, bit 1 of byte 13 is set and bit 4 is not; an evicted or expired cell starts afresh, and no other cell changes |
| Device.SynOnTheWire | flow_table_model.py:39-40 | a packet passes the SYN gate exactly when byte 12 is 6, bit 1 of byte 13 is set and bit 4 is not |
| Device.LookupIdxSplits | rule_lookup_model.py:11-12 | the rule index is the top nine bits of the low word of the product |
| Device.ClassifyParses | fpga/src/header_parser.v:22-36 | the parser reads such a frame back as the header it was built from |
| Device.EscalatesIffThreat | fpga/src/classifiers.v:79-86 | escalate is set exactly when some stage fired |
| Device.SeverityIsLargest | fpga/src/classifiers.v:81-85 | the severity is the largest among the stages that fired |
| Device.OnQuery | fpga/src/nids_top.v:173-174 | a point query's reply decodes to the source and an estimate that is never below its true count, up to the cap; nothing else changes |
| Device.OnSnapshot | fpga/src/nids_top.v:175-177 | a snapshot request changes only the pending reply |
| Device.OnHll | fpga/src/nids_top.v:178-179 | a live HLL read's reply decodes to the current aggregates; nothing else changes |
| Device.OnBloomWrite | fpga/src/nids_top.v:96-99 | exactly the addressed Bloom word takes the value |
| Device.OnBloomRead | fpga/src/nids_top.v:187 | the reply decodes to the address and its word; nothing else changes |
| Device.OnThresholdWrite | fpga/src/thresholds.v:25-34 | exactly the addressed threshold takes the value |
| Device.OnThresholdRead | fpga/src/nids_top.v:188 | the reply decodes to the register's value; nothing else changes |
| Device.OnRuleWrite | fpga/src/nids_top.v:83-94 | exactly the addressed cell then decodes to the rule, cut to its fields |
| Device.OnRuleRead | fpga/src/nids_top.v:189 | the reply decodes to the index and its rule; nothing else changes |
| Classifiers.RuleEdge | fpga/src/rule_lookup.v:33-60 | the two-phase lookup compares latched source and epoch with the rule read meanwhile |
| Classifiers.JoinEdge | fpga/src/classifiers.v:63-91 | the three outputs are latched as they come and combined once all are there |
| Classifiers.Edge | fpga/src/classifiers.v:32-91 | on every edge of a job Bloom stage, flow table, rule lookup, join and encoder stand where the stage number says; the tenth presents the frame-level verdict |
| NidsTop.EdgeKeeps | fpga/src/nids_top.v:31-193 | each edge keeps the top level in step with the frame in service: fields after one edge, writes and Bloom reads after two, threshold and rule readouts after three, control replies after four |
| NidsTop.SettledIsDone | fpga/src/nids_top.v:149-193 | once a frame is served, reply register, thresholds, rules, Bloom words and frame count are those of the frame-level device |
| Fpga.PipelineIsHonest | fpga/src/nids_top.v:104-128 | the clocked classifiers are such: they present exactly the frame-level verdict, ten edges after a classify frame and at no other time |
| Fpga.PipelineIsFed | fpga/src/nids_top.v:59-120 | the top level hands the classifiers one frame at a time, with its thresholds, epoch, rule readout and sequence number stable while they are used |
| Fpga.Edge | fpga/src/nids_top.v:31-193 | each edge of top level and classifiers together keeps both in step with the frame in service |
| Chip.TelemetryIsHonest | fpga/src/nids_top.v:130-147 | the clocked telemetry answers queries, snapshot and live reads as the frame-level one |
| Chip.TelMoves | fpga/src/nids_top.v:136-144 | each edge keeps the telemetry in step with the frame in service: its work, and the packets and ticks of the frame-level device |
| Chip.ShiftIsUnseen | fpga/src/nids_top.v:136-144 | router and classifiers cannot tell a window that ends before a frame takes effect from one that ended before it arrived |
| Chip.Edge | fpga/src/nids_top.v:31-193 | each edge of router, classifiers and telemetry together keeps all three in step with the frame in service; a window that ends before a frame has taken effect ends before the frame |
| Chip.RunChip | fpga/src/nids_top.v:1-16 | for every run whose frames complete at least 11 edges apart, whatever the frames, and whose windows end anywhere but on the five edges on which a classify frame's packet is being counted, the clocked design shows the reply, stores, frame count, telemetry registers and sketches of the frame-level device that was sent them, each window ending between the effects it falls between |
| Chip.TicksSettle | fpga/src/nids_top.v:136-144 | once a frame has taken effect no later edge changes how many windows ended before it |
| Board.Edge | fpga/src/nids_top.v:195-200 | each edge of SPI slave and design together keeps the design in step with the completed frames, and the transfer in progress with the reply pending at its selection |
| Board.RunBoard | fpga/src/nids_top.v:1-16 | for every sequence of levels and ticks with that spacing at selections, transfers of any length included, transfer k reads back, bit for bit, the pending reply of the frame-level device that was sent the complete frames before it, and at rest all stores are that device's |
| Board.FramesAreGroups | fpga/src/spi_slave_rx.v:47-73 | the complete frames of a transfer are its successive groups of 256 bits, a rest dropped |
| Board.WholeTransfers | PROTOCOL.md:39-42 | when all transfers are whole frames, transfer k reads back the bytes of the reply to frame k - 1 |
| Board.LinkIsTheBoard | PROTOCOL.md:39-42 | so the frame-level link returns in each transfer what the board's pins return |
| Device.SnapshotFits | telemetry.py:66-75 | every snapshot a device can have latched fits the reply's masked fields |
| Device.SnapshotSurvives | telemetry.py:98-104 | a window of fewer than 2^32 packets is read back by the decoder field by field, none cut |
| Link.Link.SendFrame | PROTOCOL.md:39-42 | a transfer returns the reply to the frame before, after any number of window ticks in between |
| Link.SequenceNumbers | fpga/src/nids_top.v:36-45 | every frame is counted once, so the t-th transfer's verdict carries its number modulo 256 |
| Link.PendingVerdict | fpga/src/nids_top.v:165-172 | after a classify frame the pending reply decodes to that frame's verdict |
| Link.ThresholdWritesAgree | fpga/src/thresholds.v:25-34 | a device and the twin's register file given the same writes, unknown ids and any window ticks included, keep the same limits and the same rule epoch |
| Link.LogIsPlayed | fpga/src/nids_top.v:165-193 | the device of any log is the one that has played the log's frames one after the other, ticks in between |
| Orchestrator.RecordVerdict | demo/orchestrator.py:51-52 | the deque keeps the last twelve verdicts in order |
| Orchestrator.ReadRuleEpoch | demo/orchestrator.py:69-71 | the epoch returned is the device's rule-epoch tap: the reply read is the one requested |
| Orchestrator.PollSnapshot | demo/orchestrator.py:59-66 | the snapshot read is that of the window latched when the request arrived |
| Orchestrator.MaybePushRule | demo/orchestrator.py:74-94 | a rule is pushed exactly when the polled top source meets the trigger, is nonzero and has not been pushed; then the two frames sent and the record kept are these, the rule write naming that source, action 5, severity 3 and the epoch read |
| Orchestrator.HeavySourceTriggers | demo/orchestrator.py:77-85 | when any source reached the trigger in the window just ended, its poll pushes a source of that window unless the top source is 0.0.0.0 or already pushed |
| Orchestrator.DueIsTriggers | demo/orchestrator.py:77-85 | what the source tests on the polled snapshot is, on the log: a latched count that reaches the trigger, a nonzero source, and no earlier rule write that names it |
| Orchestrator.PushedSourceIsHeavy | demo/orchestrator.py:77-85 | in clean windows whose leader has a row to itself, every pushed source did send at least as many packets as the trigger |
| Orchestrator.WrittenSources | demo/orchestrator.py:86-94 | the sources pushed are those that the log's rule writes name |
| Orchestrator.PushFrameBytes | demo/orchestrator.py:86-94 | a push on the wire: the source, its index, action 5, severity 3 and the epoch |
| Orchestrator.PollsInNumbers | demo/orchestrator.py:132-136 | the number of polls in n ticks |
| Orchestrator.MatchesIffLatest | rule_lookup_model.py:15-19 | a nonzero source matches exactly when it is the most recent push at its index |
| Orchestrator.VerdictReportsLatest | fpga/src/nids_top.v:83-94 | the wire's rule-match bit says exactly that |
| Orchestrator.LogHoldsPushes | demo/orchestrator.py:85-94 | at every transfer of a log whose rule writes are the pushes, the device's rule cells hold the latest push at each index |
| Orchestrator.RuleBitsAreDue | demo/orchestrator.py:74-76 | so every verdict of the log on a nonzero source has its rule bit set exactly when that source was the latest push at its index when the frame arrived |
| Orchestrator.LatestPushIsEnforced | demo/orchestrator.py:74-76 | a frame from that source is matched, escalated and reported at severity 3 |
| Orchestrator.SendScheduled | demo/orchestrator.py:126-130 | each scheduled frame's read is recorded as the verdict due |
| Orchestrator.RunLoop | demo/orchestrator.py:97-146 | for every schedule and trigger: a transfer is a rule write exactly when the exchange before it polled a window whose latched top count reached the trigger, with a top source that is nonzero and that no earlier rule write names, and it then writes that source; so a poll below the trigger is followed by none; every main-loop read is the verdict on the frame sent just before, its rule bit set exactly when that source was the latest push at its index; recent_verdicts is the last min(12, n) in order; transfers = 2 + frames + 2 polls + 2 pushes |
| SiliconCheck.EvaluateRun | silicon_check.py:20-57 | too few or mis-sized frames are errors; otherwise the run passes if and only if, for every header, the bytes read back hold 0xA5, the expected mask modulo 16, the expected severity and the expected escalate bit, and each sequence byte is one more than the one before modulo 256; each row and the notes are the source's |
| SiliconCheck.OneDifferenceFails | silicon_check.py:43-44 | one threat bit, severity or escalate flag that differs in one verdict fails the run |
| SiliconCheck.RemarksOnBytes | silicon_check.py:31-55 | the notes, on the bytes: a verdict pending at the start, numbers that skip, a first number other than 1 |
| SiliconCheck.IncrementsIff | silicon_check.py:50 | the numbers increment exactly when the k-th is the first plus k modulo 256, so any start is accepted |
| SiliconCheck.InteriorLossIsNoticed | silicon_check.py:50-52 | losing d interior frames is rejected unless 256 divides d |
| Reference.Classifier.Classify | classifier.py:34-46 | the older table is updated with the parsed header and the returned frame encodes Bloom, scan and rate results with their largest severity |
| Reference.Golden | gen_verdict_golden.py:1-8 | a new classifier fed a stream, numbered from 0, yields the expected verdict of every frame |
| Reference.DeviceMatchesReference | classifier.py:1-6 | the device's verdict frame on the k-th of any classify frames is the reference's when the sources keep apart in the older table (throughout, or within each epoch while no epoch number returns), no rule matches, the Bloom memory is the filter's image and the rate threshold is at most 255 or above 16383 |
| Reference.OtherRatesDiffer | classifier.py:1-6 | for every other rate threshold some stream of classify frames without collisions gets another verdict frame from the device than from the reference |
| Reference.SiliconRun | spi_verdict_check.py:25-36 | on every such stream the silicon round trip passes against the golden verdicts, wherever windows end |
| GoldenStream.BuildStream | gen_verdict_golden.py:34-55 | the padding loops build the listed stream: every scenario starts a window |
| GoldenStream.FramesApart | gen_verdict_golden.py:34-55 | the golden stream is such a stream: no two of its sources meet in one bucket of the older table in one epoch, and no epoch number returns |
| GoldenStream.FramesComparable | gen_verdict_golden.py:34-55 | from a device after reset device and reference must agree on it |
| GoldenStream.VerdictCheck | spi_verdict_check.py:18-36 | the round trip of the golden stream over the device passes against the golden verdicts, whatever the filter holds and wherever windows end |
| GoldenVerdicts.ScanRows | VERDICT_GOLDEN.md:77-113 | the vertical scan is reported on its fifth frame and not before, the horizontal scan on its fifth |
| GoldenVerdicts.RateRows | VERDICT_GOLDEN.md:93-164 | flood and combined attack are reported as a rate on their eighth frames and not before |
| GoldenVerdicts.CalmRows | VERDICT_GOLDEN.md:45-156 | no other frame is reported: not benign traffic, not padding, not the scan across a window boundary |
| GoldenVerdicts.GoldenRows | VERDICT_GOLDEN.md:45-164 | so of the 120 golden frames exactly numbers 36 and 68 are reported as scans and exactly 55 and 119 for their rate |
| GoldenVerdicts.StageBits | VERDICT_GOLDEN.md:45-164 | and the device's reply has those two bits in its mask, whatever its filter and rules hold and wherever windows end |
| GoldenVerdicts.BoardStartsReset | fpga/src/thresholds.v:22-28 | the device behind the pins starts in the state these theorems start from |

## Left out

- `estimate_from`, the estimates' error bounds, `RampResult.ber` and the benchmark statistics: real analysis and floating point.
- spidev, scapy, argparse, printing, files, the dashboard, the demo's frame generators and the scripts around the loop: input and output.
- Wall-clock time: `run_loop`'s duration, pacing and drift recovery. `Orchestrator.RunLoop` takes the frames that the schedule yields before it ends or the time is up; window ticks fall between transfers, as many as an arbitrary function says.
- Dotted address text: addresses are 32-bit numbers.
- Resets in the middle of a run: the Verilog clears the epoch but not the memories. One reset at the start is assumed.
- `fpga/src/scan_rate.v` at clock level: the design no longer contains it.
- The count-down of the window timer: its ticks fall on any edges. The theorems on the whole design (`Chip.RunChip`, `Board.RunBoard`) leave out ticks on the five edges on which a classify frame's packet is being counted, because there they are false: `TelemetryCore.TickDuringService` says what such a tick leaves, and `CollisionIsTwinIff` when that is the frame-level telemetry.
- Input synchronisers and metastability of the SPI slave: the model starts from the synchronised levels. Its `rx_byte`, `rx_byte_valid` and `byte_index` outputs, which nothing reads, are not modelled.
- Source 0.0.0.0 in rule matching: it matches a blank cell at epoch 0; the theorems on matching are for nonzero sources.
- `Device.Respond` keeps the twin's capped byte totals; the clocked table's wrap at 24 bits is in FlowCore, and no verdict reads the total.
- The 16-bit bitmaps and the flag bytes are sets of bit positions (`Words.Bitmap`); population count is the set's size.
- Lists of cells that the Python replaces in place are sequences held in a field that the methods reassign; aliasing of a cell dictionary with a reference kept outside the table is not captured.
- The random sample of `hot_load_bloom.py` is any list of addresses; a row of `evaluate_run` holds the two verdicts that its summary renders.
- The overflow errors of Python's `to_bytes`: the encoders are stated for values that fit their fields.
- Board.RunBoard: requires that the clock is low at a selection and that a transfer starts at least 11 edges after the last completed frame; an earlier one would latch a reply that is not there yet.
- Orchestrator.RunLoop: requires that the schedule yields classify frames only, as the demo's generators do, and starts from a blank rule store.
