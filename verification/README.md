# Kokura: verified models

This project models the parts of Kokura whose correctness rests on an argument rather than on one line of code, and
proves what they are for:

- **The audio unit** (`crates/kokura-core/src/apu.rs`): four channels, the eight-step frame sequencer, the three timing
  counters, the mixer, the output filters and the bounded stereo queue. `ApuDevice.Apu` is the object itself, with
  arrays and fields its methods update in place. Every method is proved to do to the object what a function on values
  says; the theorems are about those functions, over every run of calls.
- **The GIF encoder** (`python/kokura_bridge.py`): the literal-only LZW encoder, its bit packing and its sub-blocks,
  against a decoder written from the GIF89a specification (Appendix F "Variable-Length-Code LZW Compression", section 15
  "Data Sub-blocks"). The decoder keeps a real string table.
- **Static analysis** (`crates/kokura-bridge/src/decompile.rs`): reachable instructions, basic blocks and their edges,
  dominators and post-dominators, and the partition of ROM windows into code and data runs. Results are compared with
  definitions by paths, least sets and maximal runs that mention no worklist and no fixpoint.
- **Symbol spans** (`crates/kokura-bridge/src/map_parser.rs`, `crates/kokura-bridge/src/symbols.rs`): the stable sort, the
  inferred ends, and the agreement of the two lookups.

## How the audio proofs fit together

`ApuState` holds the values and the invariant `Inv`. `ApuOscillator`, `ApuSequencer`, `ApuPcm` and `ApuWrite` give the
meaning of one step of each kind; `ApuRun` puts steps together into chunks and ticks; `ApuCalls` gives every public call
as one function `Apply` and proves facts about all runs of calls; `ApuLiveness` follows lengths and sweeps in the long
run; `ApuWitness` holds the runs of calls that reach exceptional states. `ApuMeaning`, `ApuCourse` and `ApuLoads` say
what levels and samples, turns, envelopes and sweeps, and register writes amount to in the hardware's own numbers, with
no reference to the functions that compute them.

The reference machine of `ApuSequencer.Cycle` counts single cycles, with ordinary count-down dividers, and knows no
chunks. Ticking is proved to be a count of its cycles, which is where time-split invariance comes from. For long-run
facts the machine is reduced once more, to the sequencer events alone (`ApuLiveness.CyclesAreEvents`).

Numbers that the program keeps in fixed widths are integers here. Saturating and truncating operations are written out
where the program has them, and `ApuPcm.MixBound`, `ApuPcm.AccumulateBound` and the invariant show that the plain
additions stay in range. Channels 1 to 4 are numbered 0 to 3. `Apply` names calls by constructors: `Boot` is
`initialize_post_boot_state`, `Resize` is `set_buffer_capacity_frames`, `Drain` is `drain_interleaved_i16`.

The methods of `ApuDevice.Apu` are steps toward `Perform`, which performs any public call on the object; the table lists
those of them that carry loops.

## Where the code differs from what is said about it

- The comment on `write` (`crates/kokura-core/src/apu.rs:231-232`) says ordinary register side effects apply while the
  power is off. The code returns early (`crates/kokura-core/src/apu.rs:237-251`): a DMG accepts length counters only and a
  CGB nothing, and no register is stored (`ApuWrite.PoweredOffWrites`).
- A dominator or post-dominator set equal to the universe does not mean "unreached": a graph with one block is a
  counterexample (`Dominators.UniverseIsNotUnreached`). The universe marks exactly the unreached blocks if and only if
  every reached block has a path that leaves out some block (`Dominators.DominatorUniverse`,
  `Dominators.PostDominatorUniverse`).
- Splitting a tick does not keep every sample. It does so, for every state and every remainder, exactly when the split
  falls on a chunk boundary of the unsplit tick: a multiple of 16 cycles after its start up to the end of the open
  sample, that end itself, and multiples of 16 from there (`ApuWitness.SplitsExactly`). For every phase of the sample
  and every split inside a chunk a run of calls is given after which the split shows (`ApuWitness.InsideChunkShows`).
  Control state, counters and queue length never change with any split (`ApuRun.TimeSplitInvariance`).
- A DMG boot leaves channel 1 playing with an empty length counter (`ApuCalls.DmgBootIsNotLive`). Channels 2 to 4 never
  do so, and channel 1 does exactly while no call since the last DMG boot has refreshed it (`ApuCalls.ReachableLive`).
  Writes to NR11, NR14 and those that end the channel refresh it, and a CGB boot; no amount of ticking does
  (`ApuCalls.OnlyCallsRevive`).
- A write to NR10 changes the shift of a playing channel without an overflow test, so the sweep can become unsafe
  there and only there, and stays so until it is mended (`ApuCalls.SweepWriteSafety`, `ApuCalls.ReachableSafe`).
  `ApuWitness.SweepBreakingRun` is such a run of calls.
- Between NR10 writes a safe sweep does not always pass its first overflow test: without a shift the pitch doubles, a
  trigger makes no test, and the first one fires from shadow 1024 (`ApuCalls.FirstOverflowExactly`, with a run of calls
  in `ApuWitness.DoublingRun`). With a shift it always passes.
- The noise register survives any number of shifts at one width, but not every change of width: in narrow mode it dies
  exactly when its low seven bits are zero, where wide shifts can bring it (`ApuOscillator.NoiseLocksUp`, with a run of
  calls in `ApuWitness.NoiseDiesRun`).
- The noise period is the divisor shifted in 16 bits: bits pushed past the top are lost
  (`ApuOscillator.NoisePeriodExact`, with an input in `ApuOscillator.NoisePeriodLosesBits`).
- Not every decoded instruction lies in a block. All do if and only if each one that is no leader comes right after, in
  address order, an instruction that ends no block (`BasicBlocks.BlocksCover`). Two kinds of code fail: a conditional
  return ends a block but makes no leader (`BasicBlocks.StrandingInput`), and where decoded instructions overlap, one
  that ends a block can stand between an instruction and the one it falls through to (`BasicBlocks.OverlapInput`).
  Without overlap the first kind is the only one (`BasicBlocks.BlocksCoverWalked`).
- Dominators take block 0, the lowest address, as entry, whatever the function start is
  (`crates/kokura-bridge/src/decompile.rs:2470-2472`).
- A target-bearing instruction that is neither jump nor call queues no fallthrough
  (`crates/kokura-bridge/src/decompile.rs:1676-1678`), and `Reachability.Follow` has it so.

## Model

| member | source | states |
|---|---|---|
| ApuRun.TimeSplitInvariance | crates/kokura-core/src/apu.rs:341-374 | However a stretch of time is cut into ticks, single cycles included, registers, wave RAM, channels, sequencer, timing counters, generated and dropped counters and queue length are those of one tick |
| ApuRun.TickSplit | crates/kokura-core/src/apu.rs:479-544 | Two ticks and the one tick of their sum agree on all of that, although their chunk boundaries differ |
| ApuRun.RunIsCycles | crates/kokura-core/src/apu.rs:346-359 | Whatever the chunks, the control state after n cycles is that of n single cycles of a machine with count-down dividers |
| ApuRun.TickIsCycles | crates/kokura-core/src/apu.rs:341-374 | A powered tick of n cycles is n reference cycles, an unpowered one changes nothing |
| ApuWitness.SplitsExactly | crates/kokura-core/src/apu.rs:479-515 | For every phase of the open sample: a split after a cycles keeps the complete state, samples and filters included, in every state of that phase and for every remainder, if and only if chunks end there anyway; so on the 16-cycle grid, and nowhere inside a chunk |
| ApuRun.TickSplitAtBoundary | crates/kokura-core/src/apu.rs:479-515 | Ticks that meet at a chunk boundary compose exactly, from every state within the invariant |
| ApuRun.TickSplitOnGrid | crates/kokura-core/src/apu.rs:479-515 | In particular when the open sample and the first part are multiples of 16 cycles |
| ApuWitness.InsideChunkShows | crates/kokura-core/src/apu.rs:502-510 | For every phase and every split inside a chunk, a run of calls reaches a state of that phase in which splitting there changes the state one cycle later |
| ApuRun.SplitShows | crates/kokura-core/src/apu.rs:504-515 | A split inside a chunk shows, in the open sum or once the sample is out in the filter memory, whenever the left mix moves by 127 or more with the next cycle |
| ApuRun.FastRefinesTraced | crates/kokura-core/src/apu.rs:378-399 | The fast driver leaves the same complete state as the traced one, from every state whose timing counters lie within their periods, as in every reachable state |
| ApuRun.RunQueues | crates/kokura-core/src/apu.rs:1195-1203 | A run appends exactly the frames that fall due, keeps the newest that fit, and counts every frame generated and every frame shed |
| ApuRun.RunMeters | crates/kokura-core/src/apu.rs:1195-1203 | Queue length and both counters after n cycles, in closed form and independent of any chunk |
| ApuCalls.ReachableInv | crates/kokura-core/src/apu.rs:100-131 | After any run of public calls the mask repeats the enable flags, enabled implies DAC on, every field is in range, the counters are one clock, accumulators cover the open sample, filters and queue are bounded |
| ApuCalls.ApplyKeepsInv | crates/kokura-core/src/apu.rs:174-465 | Each public call by itself keeps that invariant |
| ApuCalls.FramesAreConserved | crates/kokura-core/src/apu.rs:438-465 | Over every run of calls the queue is a contiguous suffix of the frames generated since the last clear, in whole pairs and within capacity; generated = drained + dropped + discarded + cleared + queued, up to saturation of the two counters; and the drained samples are samples of the generated sequence, in its order, each once, all older than the queue |
| ApuCalls.RecordBalances | crates/kokura-core/src/apu.rs:284-294 | Each call by itself keeps that balance and that order |
| ApuCalls.ReachableLive | crates/kokura-core/src/apu.rs:699-701 | After every run channels 2 to 4 have a length to count whenever they play, and channel 1 has one exactly when no DMG boot is left without a refreshing write or a CGB boot after it; if one is, channel 1 plays with nothing to count and no pitch to sweep |
| ApuCalls.ApplyLiveExactly | crates/kokura-core/src/apu.rs:174-465 | From a unit whose playing channels all have lengths, the one call after which this fails is the DMG boot |
| ApuCalls.ApplyRevives | crates/kokura-core/src/apu.rs:238-272 | From such a state, exactly which calls end it: an accepted NR11 load, an NR14 trigger, a write that ends the channel (its DAC, a cleared negate after use, power-off) and a CGB boot; every other call, ticks included, leaves such a state |
| ApuCalls.OnlyCallsRevive | crates/kokura-core/src/apu.rs:980-1047 | In every reachable state with an unrefreshed DMG boot: channel 1 plays on the empty counter however many cycles pass, no tick of either driver ends that, and of the other calls exactly the refreshing ones do |
| ApuCalls.DmgBootIsNotLive | crates/kokura-core/src/apu.rs:188-192 | A DMG boot is a concrete exception |
| ApuCalls.SafeBetweenSweepWrites | crates/kokura-core/src/apu.rs:740-756 | No calls other than NR10 writes leave an additive shifted sweep without having passed the test it faces next, if it had |
| ApuCalls.FirstOverflowExactly | crates/kokura-core/src/apu.rs:1004-1020 | Hence, through any calls without an NR10 write and in any cycle of a tick after them, the first overflow test of the sweep that the next sequencer event applies fires if and only if at the start of the tick the sweep is additive, has no shift, and its shadow is 1024 or more; shifted sweeps always pass |
| ApuWitness.DoublingRun | crates/kokura-core/src/apu.rs:740-757 | A run of calls, its NR10 write followed by a pitch and a trigger only, after which the sweep is safe, due, and fails its first test |
| ApuCalls.ReachableSafe | crates/kokura-core/src/apu.rs:555-574 | After every run the sweep is safe exactly when no breaking NR10 write is left unmended |
| ApuCalls.ApplyMends | crates/kokura-core/src/apu.rs:980-1047 | From an unsafe sweep, exactly which calls make it safe: a fitting NR10 write, a trigger, a write that ends the channel, a boot, and a tick long enough for the sweep or the length to end the channel, by the clocks of its first state |
| ApuCalls.SweepWriteSafety | crates/kokura-core/src/apu.rs:555-574 | Exactly which NR10 writes leave the sweep safe |
| ApuCalls.SweepWriteCanBreak | crates/kokura-core/src/apu.rs:555-564 | A write that makes any playing additive channel 1 with shadow from 1366 unsafe |
| ApuWitness.SweepBreakingRun | crates/kokura-core/src/apu.rs:555-564 | A run of calls with a safe sweep that one NR10 write leaves unsafe |
| ApuLiveness.SweepFate | crates/kokura-core/src/apu.rs:980-1047 | To the cycle: without writes, a playing channel 1 is off after n cycles if and only if by then its counted length has seen as many even steps, or its rising sweep as many sweep clocks, as it had left at the start; negate mode never ends it |
| ApuLiveness.RisingMeansReach | crates/kokura-core/src/apu.rs:1001-1010 | With nonzero period and shift an additive sweep rises exactly when the shadow reaches 2^shift |
| ApuLiveness.FirstChannelEnds | crates/kokura-core/src/apu.rs:1001-1039 | The same for sequencer events; a rising sweep has its counter and one period for each application more, up to the one whose first or second test overflows |
| ApuLiveness.SweepEndsSometime | crates/kokura-core/src/apu.rs:980-1047 | It falls silent at some point exactly when its length is counted or its sweep is rising |
| ApuLiveness.FirstTestAtEveryEvent | crates/kokura-core/src/apu.rs:526-533 | From a safe sweep, at every later sequencer event, as seen after the step and the length clocks, the first overflow test of a due sweep fires if and only if the sweep was additive, unshifted and at 1024 or more at the start |
| ApuLiveness.FirstSweepSafe | crates/kokura-core/src/apu.rs:740-757 | The test made by a trigger leaves the sweep safe, whatever it was before |
| ApuLiveness.LengthRunsOut | crates/kokura-core/src/apu.rs:926-941 | Without writes a length-enabled channel with counter L stops exactly on the L-th even sequencer step, unless it is channel 1 and its sweep has ended it before; until then its counter is L less the even steps passed |
| ApuLiveness.CyclesAreEvents | crates/kokura-core/src/apu.rs:517-537 | Over any number of cycles everything but phases and counters is what the due sequencer events make of it |
| ApuLiveness.CyclesKeepLiveAndSafe | crates/kokura-core/src/apu.rs:517-537 | For each channel, ticking never empties the length of a playing one and never fills an empty one; and it never leaves a sweep unsafe |
| ApuLiveness.WriteKeepsLive | crates/kokura-core/src/apu.rs:233-337 | For each channel, no register write leaves it playing on an empty length counter if it was not |
| ApuLiveness.WriteRevives | crates/kokura-core/src/apu.rs:233-337 | Exactly which register writes end the empty counter of a playing channel 1 |
| ApuLiveness.WriteKeepsSafe | crates/kokura-core/src/apu.rs:233-337 | No write but NR10 leaves a safe sweep unsafe |
| ApuLiveness.WriteMendsExactly | crates/kokura-core/src/apu.rs:233-337 | Exactly which register writes make an unsafe sweep safe |
| ApuLiveness.NoiseSurvives | crates/kokura-core/src/apu.rs:893-923 | Over any number of cycles without a write the noise register stays within 15 bits, does not die in wide mode, nor in narrow mode with one of its low seven bits set, and does not come back once dead |
| ApuSequencer.CyclesKeepInv | crates/kokura-core/src/apu.rs:517-520 | After n cycles the invariant holds, the sequencer clock is (clock + n) mod 8192 and its step (step + (clock + n) / 8192) mod 8 |
| ApuSequencer.ChunkIsCycles | crates/kokura-core/src/apu.rs:490-544 | A chunk that reaches at most the next deadline is as many single cycles |
| ApuSequencer.NextChunk | crates/kokura-core/src/apu.rs:479-486 | The chunk chosen is between 1 and 16, no more than remains, and never passes a deadline |
| ApuSequencer.LengthsKeepInv | crates/kokura-core/src/apu.rs:926-941 | A length step clocks every channel by itself, in agreement with the mask, and touches nothing else |
| ApuSequencer.StoredPitchReadsBack | crates/kokura-core/src/apu.rs:779-809 | A swept pitch stored in the registers reads back, and no other register bit moves |
| ApuOscillator.FiresSplit | crates/kokura-core/src/apu.rs:848-862 | Deadlines met in a + b cycles are those met in a and then in b, with the divider left the same |
| ApuOscillator.SquareSplit | crates/kokura-core/src/apu.rs:842-863 | A square channel advanced by a + b is advanced by a, then by b |
| ApuOscillator.WaveSplit | crates/kokura-core/src/apu.rs:867-889 | The same of the wave channel, held sample byte included |
| ApuOscillator.NoiseSplit | crates/kokura-core/src/apu.rs:893-923 | The same of the noise channel, shift register included |
| ApuOscillator.OneCycle | crates/kokura-core/src/apu.rs:842-923 | The jumping form at one cycle is an ordinary count-down divider |
| ApuOscillator.NoiseNeverSticks | crates/kokura-core/src/apu.rs:915-921 | At one width any number of shifts keeps the register within 15 bits, nonzero in wide mode, and its low seven bits nonzero in narrow mode |
| ApuOscillator.NoiseLocksUp | crates/kokura-core/src/apu.rs:915-921 | Exactly when the register dies: in wide mode when it is zero already, in narrow mode when its low seven bits are zero, and then within eight shifts |
| ApuOscillator.WidthChangeCanKill | crates/kokura-core/src/apu.rs:705-921 | From the trigger seed, fifteen wide shifts leave bit 14 alone, and eight narrow ones then give zero |
| ApuWitness.NoiseDiesRun | crates/kokura-core/src/apu.rs:893-923 | A run of calls after which channel 4 plays on for ever with an empty noise register |
| ApuOscillator.WideShiftInjective | crates/kokura-core/src/apu.rs:915-917 | The wide shift never merges two 15-bit registers |
| ApuOscillator.NoisePeriodExact | crates/kokura-core/src/apu.rs:1218-1226 | The noise period is divisor * 2^shift exactly when that product fits in 16 bits |
| ApuOscillator.NoisePeriodLosesBits | crates/kokura-core/src/apu.rs:1218-1226 | NR43 = D7 is an input where bits are lost: the product shifts out altogether and the period is 8 |
| ApuPcm.MixBound | crates/kokura-core/src/apu.rs:1070-1111 | Each side of the mix stays within -480..480, so 16-bit additions cannot overflow |
| ApuPcm.AccumulateBound | crates/kokura-core/src/apu.rs:504-511 | The accumulators never saturate and stay within 480 per cycle |
| ApuPcm.RawBound | crates/kokura-core/src/apu.rs:1173-1180 | The sample before the filters is at most 30720 in magnitude |
| ApuPcm.FilterBounds | crates/kokura-core/src/apu.rs:1181-1188 | One frame keeps the high-pass memory within 30720 and the low-pass memory within 61440, over real arithmetic |
| ApuPcm.EnqueueKeepsInv | crates/kokura-core/src/apu.rs:1172-1204 | Averaging, filtering, evicting and appending keep every PCM bound and empty the accumulators |
| ApuPcm.ConstantInputDecays | crates/kokura-core/src/apu.rs:1182-1186 | Under constant input the high-pass output after k frames is the initial offset times charge^k |
| ApuPcm.ChargeUnit | crates/kokura-core/src/apu.rs:16-34 | The compounded per-sample charge lies strictly between 0 and 1 in both modes |
| ApuPcm.ConstantInputFallsSilent | crates/kokura-core/src/apu.rs:1182-1186 | Under constant input the high-pass output falls below any positive bound and stays there |
| ApuWrite.WriteKeepsInv | crates/kokura-core/src/apu.rs:233-337 | Any value written to any address keeps channel ranges, mask agreement and timing counters |
| ApuWrite.RegisterKeepsClock | crates/kokura-core/src/apu.rs:236-274 | A register write changes at most registers, channels and mask |
| ApuWrite.PoweredOffWrites | crates/kokura-core/src/apu.rs:237-251 | Exactly which register writes change a unit without power, and that they change one length and no register |
| ApuWrite.TriggerOutcome | crates/kokura-core/src/apu.rs:673-757 | A trigger leaves its channel playing, with its mask bit set and a length to count, exactly when the DAC is on and, for channel 1, the first sweep calculation does not overflow; other channels are not touched |
| ApuWrite.TriggerKeepsInv | crates/kokura-core/src/apu.rs:664-768 | A trigger keeps every field in range, mask and enable flags in agreement, and enabled channels with their DAC on |
| ApuWrite.PostBootInv | crates/kokura-core/src/apu.rs:174-206 | Both boot states meet the control invariant |
| ApuCourse.EnvelopeFate | crates/kokura-core/src/apu.rs:945-976 | Without writes a channel 1, 2 or 4 that plays throughout has moved its volume once when the envelope counter ran out and then once every pace step-7 clocks, up to 15 if increasing and down to 0 otherwise; a zero pace and channel 3 never move it |
| ApuCourse.SweepPitch | crates/kokura-core/src/apu.rs:980-1047 | Without writes the pitch of a channel 1 that plays throughout is its shadow swept once for every time the sweep counter ran out, each time by the pitch divided by 2^shift; the pitch registers hold the last swept pitch, no other register bit moves, and a negated sweep is remembered |
| ApuCourse.SquareTurns | crates/kokura-core/src/apu.rs:842-863 | A playing square steps its duty once every 4 * (2048 - f) cycles, f being the pitch in its registers, keeps the rest on the divider, and sounds from the first step on; of channel 1 as long as its sweep has no shift |
| ApuCourse.WaveTurns | crates/kokura-core/src/apu.rs:867-889 | A playing wave channel steps its position once every 2 * (2048 - f) cycles and holds the byte at the position stepped to, or the old byte before the first step |
| ApuCourse.NoiseTurns | crates/kokura-core/src/apu.rs:893-923 | A playing noise channel shifts its register once every period of divisor and shift in 16 bits, at least 8, in the width of bit 3, and stands still from NR43 = E0 |
| ApuCourse.NoiseShiftIs | crates/kokura-core/src/apu.rs:914-920 | One shift halves the register and brings the difference of its two lowest bits in at bit 14 and, in narrow mode, at bit 6 |
| ApuCourse.PeriodIs | crates/kokura-core/src/apu.rs:1208-1227 | The period of every channel from the bits of its registers |
| ApuMeaning.SquareLevel | crates/kokura-core/src/apu.rs:1242-1252 | A playing square puts out 15 - 2 * volume in the high phases of its duty (one, two, four or six of eight) and 15 otherwise or before its first step |
| ApuMeaning.WaveLevel | crates/kokura-core/src/apu.rs:1145-1168 | A playing wave puts out the high nibble at even positions and the low one at odd, muted, whole, halved or quartered by NR32 |
| ApuMeaning.NoiseLevel | crates/kokura-core/src/apu.rs:1145-1168 | A playing noise puts out its volume while the lowest register bit is clear |
| ApuMeaning.IdleLevel | crates/kokura-core/src/apu.rs:1099-1111 | A DAC that is off contributes 0 and one whose channel is silent 15 |
| ApuMeaning.MaskLayout | crates/kokura-core/src/apu.rs:1070-1095 | The active mask has the playing channels in bits 0 to 3 and nothing else, and is 0 without power |
| ApuPcm.MixIsRouted | crates/kokura-core/src/apu.rs:1070-1095 | The value-level mix is the sum over channels whose own NR51 bit of that side is set, times that side's NR50 level plus one |
| ApuMeaning.TickReports | crates/kokura-core/src/apu.rs:1051-1066 | After a powered tick the mix last reported is the routed mix of the state it ended in |
| ApuMeaning.WholeSample | crates/kokura-core/src/apu.rs:490-515 | From the start of a sample, 64 cycles queue one frame made from four mixes of each side, taken every 16 cycles, the last before its deadlines are served |
| ApuMeaning.FrameMeaning | crates/kokura-core/src/apu.rs:1172-1204 | That frame: each side's mixes averaged toward zero, times 64, less the high-pass memory, through the low pass of the mode, rounded; the memory follows by the charge factor of the mode to the 64th power; with every DAC off the frame is silent and the high-pass memories wait |
| ApuMeaning.TowardZero | crates/kokura-core/src/apu.rs:1173-1176 | The average is the multiple of the cycles toward zero, with less than one left over |
| ApuMeaning.ClampMeaning | crates/kokura-core/src/apu.rs:1265-1269 | Samples are the nearest integers, halves away from zero, saturated to 16 bits |
| ApuLoads.LengthLoads | crates/kokura-core/src/apu.rs:238-251 | A write to a length register that is accepted (powered, or an unpowered DMG) leaves length + value % 64 == 64, or length + value == 256 on channel 3, and touches no other channel |
| ApuLoads.LoadedLengthStops | crates/kokura-core/src/apu.rs:926-941 | So a playing gated channel plays after n cycles exactly while fewer even steps have passed than the length just loaded, unless channel 1 is ended by its sweep sooner |
| ApuLoads.RegisterStored | crates/kokura-core/src/apu.rs:252-254 | A powered register write stores its byte at its address and changes no other register, whatever side effects it has |
| ApuLoads.EnvelopeWrite | crates/kokura-core/src/apu.rs:593-625 | What NR12, NR22 and NR42 load: volume, direction, pace, counter, DAC, and the single volume step of a playing channel that rises at pace zero |
| ApuLoads.WaveDacWrite | crates/kokura-core/src/apu.rs:629-660 | Bit 7 of NR30 powers the DAC of channel 3, without which it stops |
| ApuLoads.SweepWrite | crates/kokura-core/src/apu.rs:555-574 | What NR10 loads, and that clearing a used negate stops channel 1 |
| ApuLoads.TuningWrite | crates/kokura-core/src/apu.rs:771-777 | Tuning without a trigger starts an idle divider with the new period and leaves a running one alone |
| ApuLoads.TriggerWrite | crates/kokura-core/src/apu.rs:664-768 | What a trigger reloads: divider, phase, noise register, empty length, envelope and sweep from the registers; and that it leaves the channel playing exactly when the DAC is on and, on channel 1, a shifted additive sweep does not leave 11 bits at once |
| ApuLoads.WaveWrite | crates/kokura-core/src/apu.rs:310-330 | Wave RAM takes the byte at its address; while channel 3 plays a DMG ignores it and a CGB stores it at the byte being played |
| ApuLoads.PowerWrite | crates/kokura-core/src/apu.rs:275-305 | NR52 switches the power by bit 7; off leaves wave RAM and the mode only, and other unmapped addresses change nothing |
| ApuLoads.BootMeaning | crates/kokura-core/src/apu.rs:174-206 | The registers, mask and channels after boot, in both machine modes |
| ApuLoads.NewUnit | crates/kokura-core/src/apu.rs:133-163 | The registers, channels, limit and counters of a new unit |
| ApuLoads.OutputCleared | crates/kokura-core/src/apu.rs:188-205 | Boot and power-off empty queue, sums, filters and the reported mix and keep limit and lifetime counters; no other write touches them |
| ApuDevice.Apu.constructor | crates/kokura-core/src/apu.rs:133-163 | A new object stands for the default state, which is valid |
| ApuDevice.Apu.Perform | crates/kokura-core/src/apu.rs:170-465 | Any public call on the object does what Apply says and keeps it valid, so every theorem about runs of calls holds of the object |
| ApuDevice.Apu.Tick | crates/kokura-core/src/apu.rs:341-374 | The chunk loop ends in the state of the value-level tick |
| ApuDevice.Apu.TickFast | crates/kokura-core/src/apu.rs:378-399 | The same of the fast driver |
| ApuDevice.Apu.RunChunks | crates/kokura-core/src/apu.rs:346-359 | The loop over timed chunks, with or without mid-run reports |
| ApuDevice.Apu.ProcessTimedChunk | crates/kokura-core/src/apu.rs:490-544 | One chunk with its deadlines served in order leaves the state of the value-level chunk |
| ApuDevice.Apu.AdvanceChannels | crates/kokura-core/src/apu.rs:833-840 | All four channels are advanced in place, each by its own closed form, and nothing else changes |
| ApuDevice.Apu.SquareAfter | crates/kokura-core/src/apu.rs:842-863 | The loop from deadline to deadline reaches the closed form of a square channel |
| ApuDevice.Apu.WaveAfter | crates/kokura-core/src/apu.rs:867-889 | The same of the wave channel and its sample fetches |
| ApuDevice.Apu.NoiseAfter | crates/kokura-core/src/apu.rs:893-923 | The loop performs exactly the closed-form number of shifts, and none while frozen |
| ApuDevice.Apu.ClockLength | crates/kokura-core/src/apu.rs:926-941 | One length step over all channels in place |
| ApuDevice.Apu.MixOutput | crates/kokura-core/src/apu.rs:1070-1095 | The loop over channels returns on each side the sum of the levels routed there by the bits of NR51, times that side's own NR50 level plus one, and the active mask; nothing without power |
| ApuDevice.Apu.PushFrame | crates/kokura-core/src/apu.rs:1195-1203 | The eviction loop drops whole oldest frames, as many as needed, and counts each |
| ApuDevice.Apu.SetBufferCapacityFrames | crates/kokura-core/src/apu.rs:438-453 | Zero is refused; any other 64-bit limit is taken, the doubled sample limit saturating; shrinking keeps the newest samples and counts no drop |
| ApuDevice.Apu.DrainInterleaved | crates/kokura-core/src/apu.rs:456-465 | The oldest whole frames come out in order and what remains follows them |
| GifStream.EncodeIndices | python/kokura_bridge.py:446-487 | For every byte sequence an independent decoder reads the output back as exactly that sequence, whatever follows it in the file, and meets every code at the width and table size the encoder counted |
| GifStream.StreamFits | python/kokura_bridge.py:473-482 | Every code fits its width, widths stay within 9..12, the table never exceeds 4096 entries and no literal meets a full one |
| GifStream.ControlCodes | python/kokura_bridge.py:467-483 | Code 256 comes first, at nine bits, and again whenever the table has 4096 entries, each time restarting it at 258 entries and nine bits; 257 comes last and nowhere else |
| GifStream.DecodeTail | python/kokura_bridge.py:468-482 | From any table in step with the counter the decoder gives the remaining values back and stays in step, width changes and clear codes included |
| GifStream.DecodeLiteral | python/kokura_bridge.py:469-482 | One literal: the decoder's table and width go where the encoder's count goes |
| GifStream.CountedSteady | python/kokura_bridge.py:473-482 | The width always covers the next free code and no more than 12 bits |
| GifStream.BitPacker.WriteCode | python/kokura_bridge.py:458-465 | A code is appended to the bits written so far, least significant first, with fewer than 8 bits left buffered |
| GifStream.BitPacker.Finish | python/kokura_bridge.py:484-486 | The last bits are flushed with fewer than 8 padding bits |
| GifStream.CodeRoundTrip | python/kokura_bridge.py:458-465 | The bits of a code that fits read back as the code |
| GifStream.PackSubblocks | python/kokura_bridge.py:434-441 | The loop cuts the payload into blocks of at most 255 bytes and a terminator |
| GifStream.UnblockBlocked | python/kokura_bridge.py:434-441 | Reading the blocks gives the payload back and leaves what follows untouched |
| GifStream.FrameDelays | python/kokura_bridge.py:511-519 | After any number of frames the delays add up to the exact duration rounded down; each is 1 or 2 and the substitute is never needed |
| Dominators.ComputeDominators | crates/kokura-bridge/src/decompile.rs:2467-2502 | For every graph the loop ends, and v is in dom[i] exactly when every path from block 0 to i passes through v |
| Dominators.ComputePostDominators | crates/kokura-bridge/src/decompile.rs:2506-2552 | For every graph, several exits and closed cycles included, the loop ends, and v is in pdom[i] exactly when every path from i to any exit passes through v |
| Dominators.StableIsMeaning | crates/kokura-bridge/src/decompile.rs:2478-2500 | A fixpoint reached from the top is the path notion, not just some fixpoint |
| Dominators.UpdateDescends | crates/kokura-bridge/src/decompile.rs:2490-2498 | Any update, in any order, loses nothing that lies on every path and only shrinks sets |
| Dominators.DominanceByPaths | crates/kokura-bridge/src/decompile.rs:2467-2502 | Walks back along predecessors and paths from the entry say the same |
| Dominators.UniverseMarksUnreached | crates/kokura-bridge/src/decompile.rs:2465-2466 | An unreached block keeps the universe; one such block is enough for the universe to mark exactly the unreached blocks |
| Dominators.UniverseTells | crates/kokura-bridge/src/decompile.rs:2465-2466 | For one block: the universe tells whether it is reached exactly when it is not, or some walk from it avoids some block |
| Dominators.DominatorUniverse | crates/kokura-bridge/src/decompile.rs:2465-2502 | For the whole graph and paths from block 0: the universe marks exactly the unreachable blocks if and only if every reachable block has a path that leaves out some block |
| Dominators.PostDominatorUniverse | crates/kokura-bridge/src/decompile.rs:2504-2552 | The same of post-dominators and walks to the exits |
| Dominators.UniverseIsNotUnreached | crates/kokura-bridge/src/decompile.rs:2469-2472 | Without one it marks nothing: a lone entry has the universe and is reached |
| Reachability.AnalyzeFunction | crates/kokura-bridge/src/decompile.rs:1616-1684 | The worklist ends having decoded, each once, exactly the least set that holds an acceptable start, the code after each instruction that falls through (having no target, or being a jump, call or restart) and the in-bank target of each jump, in the window and short of other roots; with exactly one cross reference per decoded instruction that has a target |
| Reachability.ReachableIsLeast | crates/kokura-bridge/src/decompile.rs:1622-1684 | Those addresses are the least set with the start that is closed under following, so no queue order matters |
| Reachability.XrefSays | crates/kokura-bridge/src/decompile.rs:1635-1658 | The cross reference of an instruction: its address, its target, the kind of its flow, and as bank 0 below 4000, the own bank in the switchable window, and otherwise what the symbols know from bank 0, then 0 for a restart, then none |
| BasicBlocks.CollectLeaders | crates/kokura-bridge/src/decompile.rs:1723-1744 | The leaders are exactly the start and what jumps, calls and restarts make: the code after them when they fall through, and their targets; conditional returns make none |
| BasicBlocks.FormBlocks | crates/kokura-bridge/src/decompile.rs:1746-1790 | Leaders in address order, one maximal block for each |
| BasicBlocks.BlockShape | crates/kokura-bridge/src/decompile.rs:1746-1790 | A block is a stretch of neighbours in address order whose instructions but the last fall through and are no jump, return or indirect jump; it ends with one that is, at the end of the code, or before a leader |
| BasicBlocks.BlocksDisjoint | crates/kokura-bridge/src/decompile.rs:1748-1768 | Blocks come in address order and share no instruction |
| BasicBlocks.BlocksCover | crates/kokura-bridge/src/decompile.rs:1723-1790 | For any decoded code, overlapping or not: every instruction lies in a block if and only if each one that is no leader comes right after one that ends no block; and none lies in two blocks |
| BasicBlocks.CoveredExactly | crates/kokura-bridge/src/decompile.rs:1748-1768 | For each instruction: it lies in a block exactly when it follows from a leader without a block end in between |
| BasicBlocks.BlocksCoverWalked | crates/kokura-bridge/src/decompile.rs:1723-1790 | For walked code without overlap the condition is that no conditional return strands the instruction after it |
| BasicBlocks.OverlapInput | crates/kokura-bridge/src/decompile.rs:1748-1768 | The bytes 20 01 01 C9 00 C9 hold no conditional return, and their last instruction lies in no block |
| BasicBlocks.StrandedIsUncovered | crates/kokura-bridge/src/decompile.rs:1756-1767 | In walked code without overlap a stranded instruction lies in no block |
| BasicBlocks.StrandingInput | crates/kokura-bridge/src/decompile.rs:1756-1767 | A ROM of a conditional and a plain return meets every condition but the exact one, and leaves the plain return in no block |
| BasicBlocks.StartIsWalked | crates/kokura-bridge/src/decompile.rs:1720-1724 | A walk that decoded anything decoded its start, which is all that block building asks |
| BasicBlocks.LinkBlocks | crates/kokura-bridge/src/decompile.rs:1837-1846 | Predecessor and successor lists hold exactly the edges, each once, and are mutually inverse |
| BasicBlocks.CollectEdges | crates/kokura-bridge/src/decompile.rs:1797-1835 | The edges are exactly those to the next block in address order from a block that ends in a conditional jump, a call, a restart, a halt, a stop, a plain or an invalid instruction, and those to the block that starts at the target from one that ends in a jump |
| BasicBlocks.BuildBasicBlocks | crates/kokura-bridge/src/decompile.rs:1716-1849 | Blocks, edges both ways and both dominance relations, over the same graph |
| DataRanges.ClassifyDataRanges | crates/kokura-bridge/src/decompile.rs:2688-2729 | The scan ends with exactly the maximal runs of at least four non-code bytes in 0000..3FFF of bank 0 and 4000..7FFF of the others, in bank and address order |
| DataRanges.EveryByteHasOnePlace | crates/kokura-bridge/src/decompile.rs:2697-2728 | Every byte of every window is code, or in exactly one range, or in a shorter run |
| DataRanges.MarkCode | crates/kokura-bridge/src/decompile.rs:2688-2695 | The code bytes are exactly those some decoded instruction covers |
| Symbols.SymbolTable.SortAndInferEnds | crates/kokura-bridge/src/map_parser.rs:92-103 | The table is sorted by bank and start in place, and every end is the next start in the bank, at least one byte on, or the top of memory |
| Symbols.SortIsStable | crates/kokura-bridge/src/map_parser.rs:92 | Sorting orders the records by bank and start and keeps records with equal keys in their order |
| Symbols.SymbolTable.Lookup | crates/kokura-bridge/src/symbols.rs:253-258 | The first record of the bank whose span contains the address |
| Symbols.SymbolTable.LookupNearestBefore | crates/kokura-bridge/src/symbols.rs:262-267 | The record of the bank with the greatest start at or below the address, the last one on ties |
| Symbols.LookupsAgree | crates/kokura-bridge/src/symbols.rs:253-267 | One lookup finds a record exactly when the other does, both with the same start, and the same record exactly when no two records start at the queried address |

## Left out

- Trace events, `PopRisk` hints and the per-call frame counts of `tick`: observations that nothing reads back. The two drivers therefore differ in the model only by the mix last reported.
- `read`, `pcm12` and `pcm34`: register masks and nibble packing over state that is modelled.
- Serialisation, including the low-pass history it skips, and `VecDeque` allocation.
- Exact `f64` rounding: filters work over `real`, so the two filter memories and the rounding before saturation are those of exact arithmetic.
- Reserving memory when a limit grows: limits no allocator can serve are accepted here, where the program would stop in the reservation. Queue lengths are taken to be 64-bit numbers.
- The 32-bit width of the cycle argument of `tick`: any natural number is allowed.
- `set_current_frequency` for channels 2 and 3, which nothing calls.
- GIF headers, palettes, frame control bytes and quantisation, and the animation container around the image data.
- LZW streams other than the encoder's own, and minimum code sizes other than 8: the decoder handles any stream, the theorems are about streams this encoder writes.
- Confidence values, warnings and metadata in `analyze_function`; the opcode table, in whose place any decoder may stand; ROM bytes as such.
- The search for a unique symbol bank in `resolve_target_bank`: a function parameter stands for its result.
- BasicBlocks.BuildBasicBlocks: keeps addresses only; block identifiers, end addresses, loop and structure roles and switch candidates are not modelled. Identifiers are unique because starts are.
- Labels of data ranges (pointers, tiles) and ROMs whose banks are not fully backed.
- Line tokenising of map files, merging of tables, `lookup_next_after` and source maps: the model starts from parsed records.
- The C API, the command line, interrupt, DMA and bus modules, video and image conversion: boundary code or small finite arithmetic.
